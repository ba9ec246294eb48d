/** Runs in which an archive row's failure code is not the document's: one for HOLD, one for REJECTED.
    `Claims.ArchivedCode` proves that there is none for SUCCEEDED and FAILED. */
module Staleness {
  import opened Records
  import opened Writes
  import opened System
  import opened Journey
  import opened Claims
  import Up = UploadProcessor
  import Api = LoanApi

  function Request(): Api.Request { Ask(ArchiveDocumentPath(LOAN, 1)) }

  /** Document 1 can be archived with this status and code. */
  ghost predicate Archivable(T: Table, status: Status, code: Code) {
    && HeadIs(T, LOAN, 0) && Request().identity !in T.idempotency && T.archives == map[]
    && T.documents.Keys == {1} && T.uploads.Keys == {2} && T.uploads[2].document == 1
    && var D := T.documents[1];
    && D.instance == 0 && D.currentUpload == Some(2) && D.lastArchive == 0
    && D.status == status && D.failureCode == Some(code)
  }

  /** What the failing transaction of upload 2 leaves. */
  lemma FailsTo(T: Table, code: Code, disposition: Status, version: Id)
    requires HeadIs(T, LOAN, 0) && Request().identity !in T.idempotency && T.archives == map[]
    requires T.documents.Keys == {1} && T.uploads.Keys == {2} && T.uploads[2].document == 1
    requires T.documents[1].instance == 0 && T.documents[1].currentUpload == Some(2)
    requires T.documents[1].lastArchive == 0
    ensures CanFailUpload(T, 2) && Archivable(FailUpload(T, 2, code, disposition, version), disposition, code)
    ensures FailUpload(T, 2, code, disposition, version).scans == T.scans
    ensures forall x :: x in T.signals && x < T.next ==>
      x in FailUpload(T, 2, code, disposition, version).signals
      && FailUpload(T, 2, code, disposition, version).signals[x] == T.signals[x]
  {
  }

  /** The archiving call has read the document and not committed yet. */
  lemma ReadsDocument(T: Table, status: Status, code: Code)
    requires Reachable(Idle(T)) && Archivable(T, status, code) && Terminal(status)
    ensures Reachable(State(T, map[1 := ApiThread(Api.ArchiveTxn(Request(), T.documents[1]))]))
  {
    var q := Request();
    var D := T.documents[1];
    var t0, t1, t2 := Api.Begin(q), Api.ReadHead(q), Api.ReadDocument(q, 0);
    var t3 := Api.ArchiveTxn(q, D);
    hide Reachable;
    Spawns(Idle(T), SpawnApi(1, t0), 1, ApiThread(t0));
    assert map[][1 := ApiThread(t0)] == map[1 := ApiThread(t0)];
    Replaced(t0, t1);
    ApiMoves(State(T, map[1 := ApiThread(t0)]), 1, t0, T, t1);
    Replaced(t1, t2);
    ApiMoves(State(T, map[1 := ApiThread(t1)]), 1, t1, T, t2);
    Replaced(t2, t3);
    ApiMoves(State(T, map[1 := ApiThread(t2)]), 1, t2, T, t3);
  }

  lemma Replaced(t: Api.Call, n: Api.Call)
    ensures map[1 := ApiThread(t)][1 := ApiThread(n)] == map[1 := ApiThread(n)]
  {
  }

  /** A first report of an unsafe version, or a second one that contradicts the first. */
  function Final(T: Table, version: Id, verdict: Verdict): Verdict {
    if (2, version) in T.scans && T.scans[(2, version)].verdict != verdict then Conflict else verdict
  }

  function AfterReport(T: Table, version: Id, verdict: Verdict): Table
    requires 2 in T.uploads
  {
    SetSummary(PutScan(T, 2, version, Final(T, version, verdict), true), 2, Final(T, version, verdict), version)
  }

  lemma ReportKeeps(T: Table, version: Id, verdict: Verdict)
    requires T.uploads.Keys == {2} && !verdict.Clean?
    ensures var T' := AfterReport(T, version, verdict);
      && T'.heads == T.heads && T'.idempotency == T.idempotency && T'.archives == T.archives
      && T'.documents == T.documents && T'.uploads.Keys == {2} && T'.uploads[2].document == T.uploads[2].document
      && (2, version) in T'.scans && T'.scans[(2, version)].verdict == Final(T, version, verdict)
      && T.next < T'.next
      && forall x :: x in T.signals && x < T.next ==> x in T'.signals && T'.signals[x] == T.signals[x]
  {
  }

  /** The report's invocation, whose index read came before the pin, up to its failing transaction. */
  lemma ReportFails(s: State, signal: Id, version: Id, verdict: Verdict)
    requires Reachable(s) && 0 !in s.threads && s.table.uploads.Keys == {2}
    requires signal in s.table.signals && s.table.signals[signal] == GuardDuty(2, version, true, Some(verdict))
    requires !verdict.Clean? && !verdict.Conflict?
    requires CanFailUpload(AfterReport(s.table, version, verdict), 2)
    ensures var (disposition, code) := Up.DispositionForScan(Final(s.table, version, verdict));
      Reachable(s.(table := FailUpload(AfterReport(s.table, version, verdict), 2, code, disposition, version)))
  {
    hide *;
    var T, final := s.table, Final(s.table, version, verdict);
    var (disposition, code) := Up.DispositionForScan(final);
    var T1, T2 := PutScan(T, 2, version, final, true), AfterReport(T, version, verdict);
    var T3 := FailUpload(T2, 2, code, disposition, version);
    var t0 := Up.ScanRead(signal, 2, version, verdict, true, false);
    var t1 := Up.ScanPut(signal, 2, version, final, true, false);
    var t2 := Up.Summary(signal, 2, version, final, false);
    var t3 := Up.Fail(signal, 2, version, code, disposition);
    var t4 := Up.Return(signal, 2, false);
    ReportStarts(T, signal, version, verdict);
    ReportSteps(T, signal, version, verdict);
    Spawns(s, SpawnUp(0, signal, t0), 0, UpThread(t0));
    Again(s.threads, UpThread(t0), UpThread(t1));
    UpMoves(s.(threads := s.threads[0 := UpThread(t0)]), 0, t0, T, t1);
    Again(s.threads, UpThread(t1), UpThread(t2));
    UpMoves(State(T, s.threads[0 := UpThread(t1)]), 0, t1, T1, t2);
    Again(s.threads, UpThread(t2), UpThread(t3));
    UpMoves(State(T1, s.threads[0 := UpThread(t2)]), 0, t2, T2, t3);
    Again(s.threads, UpThread(t3), UpThread(t4));
    UpMoves(State(T2, s.threads[0 := UpThread(t3)]), 0, t3, T3, t4);
    Drops(State(T3, s.threads[0 := UpThread(t4)]), 0);
    Gone(s.threads, UpThread(t4));
  }

  lemma Gone(threads: map<nat, Thread>, t: Thread)
    requires 0 !in threads
    ensures Without(threads[0 := t], 0) == threads
  {
  }

  lemma ReportStarts(T: Table, signal: Id, version: Id, verdict: Verdict)
    requires T.uploads.Keys == {2} && signal in T.signals
    requires T.signals[signal] == GuardDuty(2, version, true, Some(verdict)) && !verdict.Clean? && !verdict.Conflict?
    ensures Up.Starts(T, signal, Up.ScanRead(signal, 2, version, verdict, true, false))
  {
  }

  lemma Again(threads: map<nat, Thread>, t: Thread, n: Thread)
    ensures threads[0 := t][0 := n] == threads[0 := n]
  {
  }

  lemma ReportSteps(T: Table, signal: Id, version: Id, verdict: Verdict)
    requires T.uploads.Keys == {2} && !verdict.Clean? && !verdict.Conflict?
    requires CanFailUpload(AfterReport(T, version, verdict), 2)
    ensures var final := Final(T, version, verdict);
      var (disposition, code) := Up.DispositionForScan(final);
      var T1, T2 := PutScan(T, 2, version, final, true), AfterReport(T, version, verdict);
      && Up.Steps(T, Up.ScanRead(signal, 2, version, verdict, true, false), T,
                  Some(Up.ScanPut(signal, 2, version, final, true, false)))
      && Up.Steps(T, Up.ScanPut(signal, 2, version, final, true, false), T1,
                  Some(Up.Summary(signal, 2, version, final, false)))
      && Up.Steps(T1, Up.Summary(signal, 2, version, final, false), T2,
                  Some(Up.Fail(signal, 2, version, code, disposition)))
      && Up.Steps(T2, Up.Fail(signal, 2, version, code, disposition),
                  FailUpload(T2, 2, code, disposition, version), Some(Up.Return(signal, 2, false)))
  {
    hide FailUpload;
  }

  // ------------------------------------------------------------------- the commit

  /** Step `i` archives document `d`, which shows `status`, with a failure code that is not its own. */
  ghost predicate StaleRow(b: seq<State>, ls: seq<Label>, i: nat, d: Id, n: nat, status: Status) {
    Run(b, ls) && |b| == |ls| + 1 && i < |ls| && StaleTables(b[i].table, b[i + 1].table, d, n, status)
  }

  predicate StaleTables(T: Table, T': Table, d: Id, n: nat, status: Status) {
    && (d, n) !in T.archives && (d, n) in T'.archives
    && d in T.documents && T.documents[d].status == status
    && T'.archives[(d, n)].failureCode != T.documents[d].failureCode
  }

  lemma CommitsStale(T: Table, seen: Document, status: Status, code: Code)
    returns (b: seq<State>, ls: seq<Label>, i: nat)
    requires Reachable(State(T, map[1 := ApiThread(Api.ArchiveTxn(Request(), seen))]))
    requires Archivable(T, status, code) && seen.status == status && seen.failureCode != Some(code)
    requires seen.currentUpload == Some(2) && seen.lastArchive == 0
    ensures StaleRow(b, ls, i, 1, 1, status)
  {
    var s := State(T, map[1 := ApiThread(Api.ArchiveTxn(Request(), seen))]);
    hide Run, Does, Archivable;
    var b0, ls0 :| Run(b0, ls0) && |b0| == |ls0| + 1 && b0[|ls0|] == s;
    hide *;
    var l, s' := CommitStep(T, seen, status, code);
    RunLonger(b0, ls0, l, s');
    b, ls, i := b0 + [s'], ls0 + [l], |ls0|;
    assert b[i] == s && b[i + 1] == s';
    IsStale(b, ls, i, status);
  }

  lemma CommitStep(T: Table, seen: Document, status: Status, code: Code) returns (l: Label, s': State)
    requires Archivable(T, status, code) && seen.status == status && seen.failureCode != Some(code)
    requires seen.currentUpload == Some(2) && seen.lastArchive == 0
    ensures Does(State(T, map[1 := ApiThread(Api.ArchiveTxn(Request(), seen))]), l, s')
    ensures StaleTables(T, s'.table, 1, 1, status)
  {
    hide Archivable, Api.Steps, StaleTables, ArchiveDocument;
    CommitTables(T, seen, status, code);
    var q := Request();
    var n := Api.Respond(q, DocumentArchived(1, 2, 1));
    l := StepApi(1, Some(n));
    s' := State(ArchiveDocument(T, 1, seen, q.identity, Api.HashOf(q)),
                map[1 := ApiThread(Api.ArchiveTxn(q, seen))][1 := ApiThread(n)]);
  }

  lemma CommitTables(T: Table, seen: Document, status: Status, code: Code)
    requires Archivable(T, status, code) && seen.status == status && seen.failureCode != Some(code)
    requires seen.currentUpload == Some(2) && seen.lastArchive == 0
    ensures var q := Request();
      var T' := ArchiveDocument(T, 1, seen, q.identity, Api.HashOf(q));
      StaleTables(T, T', 1, 1, status)
      && Api.Steps(T, Api.ArchiveTxn(q, seen), T', Some(Api.Respond(q, DocumentArchived(1, 2, 1))))
  {
    ArchiveDocumentIs(T, 1, seen, Request().identity, Api.HashOf(Request()));
  }

  lemma IsStale(b: seq<State>, ls: seq<Label>, i: nat, status: Status)
    requires Run(b, ls) && |b| == |ls| + 1 && i < |ls| && StaleTables(b[i].table, b[i + 1].table, 1, 1, status)
    ensures StaleRow(b, ls, i, 1, 1, status)
  {
    hide Run;
  }

  // ------------------------------------------------------------------------ HOLD

  /** Two reports of one version that contradict each other. */
  ghost predicate HasTwoReports(T: Table) {
    && HeadIs(T, LOAN, 0) && Request().identity !in T.idempotency && T.archives == map[]
    && T.documents == map[1 := NewDocument(0, 2)] && T.uploads == map[2 := NewUpload(1)]
    && T.scans == map[] && T.next == 7
    && 5 in T.signals && T.signals[5] == GuardDuty(2, 4, true, Some(Unsupported))
    && 6 in T.signals && T.signals[6] == GuardDuty(2, 4, true, Some(AccessDenied))
  }

  lemma TwoReports() returns (T3: Table)
    ensures Reachable(Idle(T3)) && HasTwoReports(T3)
  {
    var T := UploadCreated();
    hide Reachable;
    var T1 := PutObject(T, Object(SourceKey(2), Uploaded(0), None));
    NextReachable(Idle(T), PutSource(2, 0), Idle(T1));
    var T2 := Send(T1, GuardDuty(2, 4, true, Some(Unsupported)));
    NextReachable(Idle(T1), Report(2, 4, true, Some(Unsupported)), Idle(T2));
    T3 := Send(T2, GuardDuty(2, 4, true, Some(AccessDenied)));
    NextReachable(Idle(T2), Report(2, 4, true, Some(AccessDenied)), Idle(T3));
  }

  /** HOLD: the first report holds the upload, the call reads the document, the second report finds the
      contradiction and holds it again under another code, and the call commits what it read. */
  lemma HoldCanBeStale() returns (b: seq<State>, ls: seq<Label>, i: nat)
    ensures StaleRow(b, ls, i, 1, 1, Hold)
  {
    var T := TwoReports();
    hide Reachable, FailUpload, AfterReport, CanFailUpload, HasTwoReports, StaleRow;
    TwoReportsFacts(T);
    var T1 := AfterReport(T, 4, Unsupported);
    FailsTo(T1, ScanInconclusive(Unsupported), Hold, 4);
    ReportFails(Idle(T), 5, 4, Unsupported);
    var T2 := FailUpload(T1, 2, ScanInconclusive(Unsupported), Hold, 4);
    ReadsDocument(T2, Hold, ScanInconclusive(Unsupported));
    var seen := T2.documents[1];
    var s := State(T2, map[1 := ApiThread(Api.ArchiveTxn(Request(), seen))]);
    ReportKeeps(T2, 4, AccessDenied);
    var T3 := AfterReport(T2, 4, AccessDenied);
    FailsTo(T3, ScanConflict, Hold, 4);
    ReportFails(s, 6, 4, AccessDenied);
    var T4 := FailUpload(T3, 2, ScanConflict, Hold, 4);
    b, ls, i := CommitsStale(T4, seen, Hold, ScanConflict);
  }

  lemma TwoReportsFacts(T: Table)
    requires HasTwoReports(T)
    ensures T.uploads.Keys == {2} && 5 in T.signals && T.signals[5] == GuardDuty(2, 4, true, Some(Unsupported))
    ensures Final(T, 4, Unsupported) == Unsupported
    ensures var T' := AfterReport(T, 4, Unsupported);
      && HeadIs(T', LOAN, 0) && Request().identity !in T'.idempotency && T'.archives == map[]
      && T'.documents.Keys == {1} && T'.uploads.Keys == {2} && T'.uploads[2].document == 1
      && T'.documents[1].instance == 0 && T'.documents[1].currentUpload == Some(2)
      && T'.documents[1].lastArchive == 0
      && (2, 4) in T'.scans && T'.scans[(2, 4)].verdict == Unsupported
      && 6 in T'.signals && T'.signals[6] == GuardDuty(2, 4, true, Some(AccessDenied)) && 6 < T'.next
  {
  }

  // -------------------------------------------------------------------- REJECTED

  /** The upload waits for its PDF check; threats have been reported in a later version of its object. */
  ghost predicate HasThreats(T: Table) {
    && HeadIs(T, LOAN, 0) && Request().identity !in T.idempotency && T.archives == map[]
    && T.documents == map[1 := NewDocument(0, 2).(status := Validating, run := Some(6))]
    && T.uploads == map[2 := Pinned()]
    && T.scans == map[] && T.next == 10
    && 5 in T.signals && T.signals[5] == GuardDuty(2, 4, true, Some(Clean))
    && 9 in T.signals && T.signals[9] == GuardDuty(2, 8, true, Some(Threats))
  }

  function Pinned(): Upload {
    NewUpload(1).(status := Validating, completed := true, run := Some(6), sourceVersion := Some(4))
  }

  lemma ThreatsReported() returns (T2: Table)
    ensures Reachable(Idle(T2)) && HasThreats(T2)
  {
    var T := UploadIsCompleted();
    hide Reachable;
    var T1 := PutObject(T, Object(SourceKey(2), Uploaded(1), None));
    NextReachable(Idle(T), PutSource(2, 1), Idle(T1));
    T2 := Send(T1, GuardDuty(2, 8, true, Some(Threats)));
    NextReachable(Idle(T1), Report(2, 8, true, Some(Threats)), Idle(T2));
  }

  /** The table as the invocation of the clean report leaves it, one write after the other. */
  function Scanned(T: Table): Table { PutScan(T, 2, 4, Clean, true) }
  function Summarized(T: Table): Table {
    if 2 in T.uploads then SetSummary(T, 2, Clean, 4) else T
  }

  function Leased(T: Table): Table {
    if 2 in T.uploads then LeaseValidation(T, 2) else T
  }

  function Clear(): Upload { Pinned().(scan := Some(Clean), scanVersion := Some(4)) }

  ghost predicate Checking(T: Table, U: Upload) {
    && HeadIs(T, LOAN, 0) && Request().identity !in T.idempotency && T.archives == map[]
    && T.documents == map[1 := NewDocument(0, 2).(status := Validating, run := Some(6))]
    && T.uploads == map[2 := U] && T.scans == map[(2, 4) := Scan(Clean, true)] && T.next >= 10
    && 5 in T.signals && T.signals[5] == GuardDuty(2, 4, true, Some(Clean))
    && 9 in T.signals && T.signals[9] == GuardDuty(2, 8, true, Some(Threats))
  }

  lemma ScannedFacts(T: Table)
    requires HasThreats(T)
    ensures Checking(Scanned(T), Pinned())
  {
  }

  lemma SummarizedFacts(T: Table, U: Upload)
    requires Checking(T, U) && (U == Pinned() || U == Clear())
    ensures Checking(Summarized(T), Clear())
  {
  }

  lemma LeasedFacts(T: Table)
    requires Checking(T, Clear())
    ensures CanLeaseValidation(T, 2, 4) && 2 in T.uploads
    ensures Checking(Leased(T), Clear().(lease := Some(Lease(T.next, T.clock + 300))))
  {
  }

  lemma ScanJoins(T: Table, T1: Table, T2: Table)
    requires HasThreats(T) && T1 == Scanned(T) && Checking(T1, Pinned()) && T2 == Summarized(T1)
    ensures Up.Starts(T, 5, Up.ScanRead(5, 2, 4, Clean, true, true))
    ensures Up.Steps(T, Up.ScanRead(5, 2, 4, Clean, true, true), T, Some(Up.ScanPut(5, 2, 4, Clean, true, true)))
    ensures Up.Steps(T, Up.ScanPut(5, 2, 4, Clean, true, true), T1, Some(Up.Summary(5, 2, 4, Clean, true)))
    ensures Up.Steps(T1, Up.Summary(5, 2, 4, Clean, true), T2, Some(Up.Reconcile(5, 2, 4)))
  {
    hide SetSummary, PutScan;
  }

  lemma PinJoins(T2: Table, T3: Table)
    requires Checking(T2, Clear()) && T3 == Summarized(T2) && Checking(T3, Clear())
    ensures Up.Steps(T2, Up.Reconcile(5, 2, 4), T2, Some(Up.LoadScan(5, 2, 4, Clear())))
    ensures Up.Steps(T2, Up.LoadScan(5, 2, 4, Clear()), T2, Some(Up.SyncSummary(5, 2, 4, Clear(), Clean)))
    ensures Up.Steps(T2, Up.SyncSummary(5, 2, 4, Clear(), Clean), T3, Some(Up.LeaseCheck(5, 2, 4, Clear())))
    ensures Up.Steps(T3, Up.LeaseCheck(5, 2, 4, Clear()), T3, Some(Up.LeaseTry(5, 2, 4, Clear())))
  {
    hide SetSummary, PutScan;
  }

  function Rejecting(T: Table): Table {
    if CanFailUpload(T, 2) then FailUpload(T, 2, InvalidObject(0), Rejected, 4) else T
  }

  lemma CheckSteps(T3: Table, T4: Table)
    requires CanLeaseValidation(T3, 2, 4) && 2 in T3.uploads && T4 == Leased(T3) && CanFailUpload(T4, 2)
    ensures var fail := Up.Fail(5, 2, 4, InvalidObject(0), Rejected);
      && Up.Steps(T3, Up.LeaseTry(5, 2, 4, Clear()), T4, Some(Up.Validate(5, 2, 4, Clear(), T3.next)))
      && Up.Steps(T4, Up.Validate(5, 2, 4, Clear(), T3.next), T4, Some(fail))
      && Up.Steps(T4, fail, Rejecting(T4), Some(Up.Return(5, 2, false)))
  {
    hide LeaseValidation, FailUpload, CanFailUpload, CanLeaseValidation;
  }

  lemma CheckFails(T: Table, U: Upload)
    requires Checking(T, U) && U.document == 1
    ensures CanFailUpload(T, 2) && Archivable(Rejecting(T), Rejected, InvalidObject(0)) && HasThreatReport(Rejecting(T))
  {
    FailsTo(T, InvalidObject(0), Rejected, 4);
    hide FailUpload, CanFailUpload, Archivable;
  }

  ghost predicate HasThreatReport(T: Table) {
    9 in T.signals && T.signals[9] == GuardDuty(2, 8, true, Some(Threats)) && (2, 8) !in T.scans
  }

  /** The clean report joins, and the PDF check finds an invalid object. */
  lemma CheckRejects() returns (T: Table)
    ensures Reachable(Idle(T)) && Archivable(T, Rejected, InvalidObject(0)) && HasThreatReport(T)
  {
    var T0 := ThreatsReported();
    hide *;
    var T1 := Scanned(T0);
    var T2 := Summarized(T1);
    var T3 := Summarized(T2);
    var T4 := Leased(T3);
    T := Rejecting(T4);
    ScannedFacts(T0);
    SummarizedFacts(T1, Pinned());
    SummarizedFacts(T2, Clear());
    LeasedFacts(T3);
    OfDocument(T3);
    CheckFails(T4, Clear().(lease := Some(Lease(T3.next, T3.clock + 300))));
    ScanJoins(T0, T1, T2);
    PinJoins(T2, T3);
    CheckSteps(T3, T4);
    var t0, t1, t2 := Up.ScanRead(5, 2, 4, Clean, true, true), Up.ScanPut(5, 2, 4, Clean, true, true),
                      Up.Summary(5, 2, 4, Clean, true);
    Spawned(T0, t0);
    Moves(T0, t0, T0, t1);
    Moves(T0, t1, T1, t2);
    Moves(T1, t2, T2, Up.Reconcile(5, 2, 4));
    Moves(T2, Up.Reconcile(5, 2, 4), T2, Up.LoadScan(5, 2, 4, Clear()));
    Moves(T2, Up.LoadScan(5, 2, 4, Clear()), T2, Up.SyncSummary(5, 2, 4, Clear(), Clean));
    Moves(T2, Up.SyncSummary(5, 2, 4, Clear(), Clean), T3, Up.LeaseCheck(5, 2, 4, Clear()));
    Moves(T3, Up.LeaseCheck(5, 2, 4, Clear()), T3, Up.LeaseTry(5, 2, 4, Clear()));
    var validate, fail := Up.Validate(5, 2, 4, Clear(), T3.next), Up.Fail(5, 2, 4, InvalidObject(0), Rejected);
    Moves(T3, Up.LeaseTry(5, 2, 4, Clear()), T4, validate);
    Moves(T4, validate, T4, fail);
    Moves(T4, fail, T, Up.Return(5, 2, false));
    Returned(T, Up.Return(5, 2, false));
  }

  lemma OfDocument(T: Table)
    ensures Clear().(lease := Some(Lease(T.next, T.clock + 300))).document == 1
  {
  }

  lemma Spawned(T: Table, t: Up.Invocation)
    requires Reachable(Idle(T)) && Up.Starts(T, 5, t)
    ensures Reachable(Scanning(T, t))
  {
    hide Reachable, Up.Starts;
    Spawns(Idle(T), SpawnUp(0, 5, t), 0, UpThread(t));
    assert map[][0 := UpThread(t)] == map[0 := UpThread(t)];
  }

  lemma Moves(T: Table, t: Up.Invocation, T': Table, n: Up.Invocation)
    requires Reachable(Scanning(T, t)) && Up.Steps(T, t, T', Some(n))
    ensures Reachable(Scanning(T', n))
  {
    ScanSteps(T, t, T', n);
  }

  lemma Returned(T: Table, t: Up.Invocation)
    requires Reachable(Scanning(T, t))
    ensures Reachable(Idle(T))
  {
    hide Reachable;
    Drops(Scanning(T, t), 0);
    assert Without(map[0 := UpThread(t)], 0) == map[];
  }

  lemma ThreatFacts(T: Table)
    requires Archivable(T, Rejected, InvalidObject(0)) && HasThreatReport(T)
    ensures Final(T, 8, Threats) == Threats && T.uploads.Keys == {2}
  {
  }

  /** REJECTED: the check of the pinned version rejects the upload, the call reads the document, the late
      report of another version, looked up before the pin, rejects it again as malware, and the call
      commits what it read. */
  lemma RejectedCanBeStale() returns (b: seq<State>, ls: seq<Label>, i: nat)
    ensures StaleRow(b, ls, i, 1, 1, Rejected)
  {
    var T2 := CheckRejects();
    hide Reachable, FailUpload, AfterReport, CanFailUpload, StaleRow;
    ReadsDocument(T2, Rejected, InvalidObject(0));
    var seen := T2.documents[1];
    var s := State(T2, map[1 := ApiThread(Api.ArchiveTxn(Request(), seen))]);
    ThreatFacts(T2);
    ReportKeeps(T2, 8, Threats);
    var T3 := AfterReport(T2, 8, Threats);
    FailsTo(T3, MalwareDetected, Rejected, 8);
    ReportFails(s, 9, 8, Threats);
    var T4 := FailUpload(T3, 2, MalwareDetected, Rejected, 8);
    b, ls, i := CommitsStale(T4, seen, Rejected, MalwareDetected);
  }

  lemma NeverStale(b: seq<State>, ls: seq<Label>, i: nat, d: Id, n: nat, status: Status)
    requires StaleRow(b, ls, i, d, n, status)
    ensures status.Hold? || status.Rejected?
  {
    hide Run;
    ArchivedCode(b, ls, i, d, n);
  }

  /** Exactly: a document can be archived with a failure code that is not its own if, and only if, it
      shows HOLD or REJECTED, which the archiving call sees in what it read. */
  lemma StaleExactly(status: Status)
    ensures (exists b, ls, i, d, n :: StaleRow(b, ls, i, d, n, status)) <==> status.Hold? || status.Rejected?
  {
    hide StaleRow;
    if status.Hold? {
      var b, ls, i := HoldCanBeStale();
    } else if status.Rejected? {
      var b, ls, i := RejectedCanBeStale();
    } else {
      forall b, ls, i, d, n ensures !StaleRow(b, ls, i, d, n, status) {
        if StaleRow(b, ls, i, d, n, status) { NeverStale(b, ls, i, d, n, status); }
      }
    }
  }
}
