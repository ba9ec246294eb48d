/** The upload processor: one invocation per delivered signal, one table access per step.
    Raising is not a step: an invocation that cannot move can only be dropped by a crash, which
    leaves its signal pending. */
module UploadProcessor {
  import opened Records
  import opened Writes
  import opened Invariant
  import opened Preservation
  import opened Transactions

  /** `version` is the event's version until `Reconcile` has read the upload, then the exact one.
      `snap` is the upload as `Reconcile` read it. */
  datatype Invocation =
    | ScanRead(signal: Id, u: Id, version: Id, verdict: Verdict, scanCompleted: bool, seen: bool)
    | ScanPut(signal: Id, u: Id, version: Id, verdict: Verdict, scanCompleted: bool, seen: bool)
    | Summary(signal: Id, u: Id, version: Id, verdict: Verdict, seen: bool)
    | Reconcile(signal: Id, u: Id, version: Id)
    | LoadScan(signal: Id, u: Id, version: Id, snap: Upload)
    | SyncSummary(signal: Id, u: Id, version: Id, snap: Upload, verdict: Verdict)
    | LeaseCheck(signal: Id, u: Id, version: Id, snap: Upload)
    | LeaseTry(signal: Id, u: Id, version: Id, snap: Upload)
    | LeaseRefresh(signal: Id, u: Id)
    | Validate(signal: Id, u: Id, version: Id, snap: Upload, token: Id)
    | Queue(signal: Id, u: Id, version: Id, snap: Upload, token: Id, staged: Ref)
    | QueueCheck(signal: Id, u: Id, staged: Ref)
    | Fail(signal: Id, u: Id, version: Id, code: Code, disposition: Status)
    | FailCheck(signal: Id, u: Id, code: Code, disposition: Status)
    | Return(signal: Id, u: Id, waiting: bool)

  function DispositionForScan(verdict: Verdict): (Status, Code) {
    match verdict
    case Threats => (Rejected, MalwareDetected)
    case Conflict => (Hold, ScanConflict)
    case _ => (Hold, ScanInconclusive(verdict))
  }

  function FailScan(signal: Id, u: Id, version: Id, verdict: Verdict): Invocation {
    Fail(signal, u, version, DispositionForScan(verdict).1, DispositionForScan(verdict).0)
  }

  // ------------------------------------------------------------ stream filter

  datatype StreamOutcome = Ignored | Wake(version: Id) | Malformed

  predicate SignalFieldsChanged(old_: Option<Upload>, new_: Upload) {
    old_.None?
    || old_.value.status != new_.status || old_.value.completed != new_.completed
    || old_.value.sourceVersion != new_.sourceVersion
    || old_.value.scan != new_.scan || old_.value.scanVersion != new_.scanVersion
  }

  function StreamSignal(old_: Option<Upload>, new_: Upload): StreamOutcome {
    if !new_.status.Validating? then Ignored
    else if !SignalFieldsChanged(old_, new_) then Ignored
    else if !new_.completed || new_.sourceVersion.None? then Malformed
    else Wake(new_.sourceVersion.value)
  }

  // ------------------------------------------------------------------- steps

  /** First step for a delivered signal. `seen` is what a possibly stale index read showed. */
  predicate Starts(T: Table, signal: Id, t: Invocation) {
    && signal in T.signals
    && match T.signals[signal]
       case GuardDuty(u, version, scanCompleted, raw) =>
         u in T.uploads && t.ScanRead? && (t.seen ==> T.uploads[u].sourceVersion.Some?)
         && t == ScanRead(signal, u, version, NormalizeVerdict(scanCompleted, raw), scanCompleted, t.seen)
       case ClientComplete(u, version) =>
         u in T.uploads && t == Reconcile(signal, u, version)
       case StreamRecord(u, old_, new_) =>
         u in T.uploads
         && match StreamSignal(old_, new_)
            case Ignored => t == Return(signal, u, true)
            case Wake(version) => t == Reconcile(signal, u, version)
            case Malformed => false
  }

  /** One table access of invocation `t`; None means that it returned normally. */
  predicate Steps(T: Table, t: Invocation, T': Table, n: Option<Invocation>) {
    match t
    case ScanRead(signal, u, version, verdict, scanCompleted, seen) =>
      && T' == T
      && var recorded := Find(T.scans, (u, version));
      && var final := if recorded.Some? && recorded.value.verdict != verdict then Conflict else verdict;
      && n == Some(ScanPut(signal, u, version, final, scanCompleted, seen))
    case ScanPut(signal, u, version, verdict, scanCompleted, seen) =>
      && T' == PutScan(T, u, version, verdict, scanCompleted)
      && n == Some(Summary(signal, u, version, verdict, seen))
    case Summary(signal, u, version, verdict, seen) =>
      && u in T.uploads && T' == SetSummary(T, u, verdict, version)
      && n == Some(if !seen && !verdict.Clean? then FailScan(signal, u, version, verdict)
                   else Reconcile(signal, u, version))
    case Reconcile(signal, u, version) =>
      && T' == T && u in T.uploads
      && var snap := T.uploads[u];
      && var exact := if snap.sourceVersion.Some? then snap.sourceVersion.value else version;
      && n == Some(LoadScan(signal, u, exact, snap))
    case LoadScan(signal, u, version, snap) =>
      && T' == T
      && n == Some(if (u, version) in T.scans then
                     SyncSummary(signal, u, version, snap, T.scans[(u, version)].verdict)
                   else Return(signal, u, true))
    case SyncSummary(signal, u, version, snap, verdict) =>
      && u in T.uploads && T' == SetSummary(T, u, verdict, version)
      && n == Some(if !verdict.Clean? then FailScan(signal, u, version, verdict)
                   else if !snap.completed || snap.sourceVersion.None? then Return(signal, u, true)
                   else LeaseCheck(signal, u, version, snap))
    case LeaseCheck(signal, u, version, snap) =>
      && T' == T && u in T.uploads
      && n == Some(if UploadTerminal(T.uploads[u].status) then Return(signal, u, false)
                   else LeaseTry(signal, u, version, snap))
    case LeaseTry(signal, u, version, snap) =>
      if CanLeaseValidation(T, u, version) then
        T' == LeaseValidation(T, u) && n == Some(Validate(signal, u, version, snap, T.next))
      else
        T' == T && n == Some(LeaseRefresh(signal, u))
    case LeaseRefresh(signal, u) =>
      && T' == T && u in T.uploads && UploadTerminal(T.uploads[u].status)
      && n == Some(Return(signal, u, false))
    case Validate(signal, u, version, snap, token) =>
      || (T' == T && n.Some? && n.value.Fail?
          && (n.value.disposition.Rejected? || n.value.disposition.Hold?)
          && n.value == Fail(signal, u, version, n.value.code, n.value.disposition))
      || (snap.run.Some? && T' == PutObject(T, ScreenObject(u, snap, version))
          && n == Some(Queue(signal, u, version, snap, token, Ref(ScreenKey(snap.run.value, u), T.next))))
    case Queue(signal, u, version, snap, token, staged) =>
      && snap.run.Some?
      && if CanQueue(T, u, snap.run.value, version, token) then
           T' == CommitQueued(T, u, snap.run.value, version, token, staged)
           && n == Some(Return(signal, u, false))
         else
           T' == T && n == Some(QueueCheck(signal, u, staged))
    case QueueCheck(signal, u, staged) =>
      && T' == T && u in T.uploads && T.uploads[u].status.Queued?
      && T.uploads[u].screenInput.Some? && T.uploads[u].screenInput.value.version == staged.version
      && n == Some(Return(signal, u, false))
    case Fail(signal, u, version, code, disposition) =>
      if CanFailUpload(T, u) then
        T' == FailUpload(T, u, code, disposition, version) && n == Some(Return(signal, u, false))
      else
        T' == T && n == Some(FailCheck(signal, u, code, disposition))
    case FailCheck(signal, u, code, disposition) =>
      && T' == T && u in T.uploads
      && T.uploads[u].status == disposition && T.uploads[u].failureCode == Some(code)
      && n == Some(Return(signal, u, false))
    case Return(signal, u, waiting) =>
      T' == Acknowledge(T, signal) && n == None
  }

  // ------------------------------------------------- what an invocation knows

  /** A snapshot is an earlier state of the upload: what it pins is still pinned. */
  ghost predicate SnapOk(T: Table, u: Id, snap: Upload) {
    && u in T.uploads
    && var U := T.uploads[u];
    && snap.document == U.document
    && (snap.completed <==> snap.run.Some?) && (snap.completed <==> snap.sourceVersion.Some?)
    && (snap.completed ==> U.completed && U.run == snap.run && U.sourceVersion == snap.sourceVersion)
  }

  /** The scanner finished and found nothing. */
  predicate ReportsClean(s: Signal) {
    s.GuardDuty? && s.scanCompleted && s.raw == Some(Clean)
  }

  ghost predicate SignalOk(T: Table, t: Invocation) {
    && t.u in T.uploads
    && t.signal in T.signals && T.signals[t.signal].upload == t.u
    && (t.ScanRead? || t.ScanPut? ==>
          T.signals[t.signal].GuardDuty? && (t.verdict.Clean? ==> ReportsClean(T.signals[t.signal])))
    && (T.signals[t.signal].GuardDuty? ==>
          if t.ScanRead? || t.ScanPut? then t.version == T.signals[t.signal].version
          else (t.u, T.signals[t.signal].version) in T.scans)
  }

  ghost predicate LocalsOk(T: Table, t: Invocation) {
    match t
    case ScanRead(_, _, _, verdict, scanCompleted, _) => verdict.Clean? ==> scanCompleted
    case ScanPut(_, _, _, verdict, scanCompleted, _) => verdict.Clean? ==> scanCompleted
    case LoadScan(_, u, version, snap) => Exact(T, u, version, snap)
    case SyncSummary(_, u, version, snap, verdict) =>
      Exact(T, u, version, snap) && (verdict.Clean? ==> (u, version) in T.log.clean)
    case LeaseCheck(_, u, version, snap) => Cleared(T, u, version, snap)
    case LeaseTry(_, u, version, snap) => Cleared(T, u, version, snap)
    case Validate(_, u, version, snap, _) => Cleared(T, u, version, snap)
    case Queue(_, u, version, snap, _, staged) =>
      Cleared(T, u, version, snap) && ScreenStaged(T, u, snap.run.value, version, staged)
    case Fail(_, _, _, _, disposition) => disposition.Rejected? || disposition.Hold?
    case FailCheck(_, _, _, disposition) => disposition.Rejected? || disposition.Hold?
    case Return(_, u, waiting) =>
      !waiting ==> u in T.uploads && Rank(T.uploads[u].status) > Rank(Validating)
    case _ => true
  }

  ghost predicate Exact(T: Table, u: Id, version: Id, snap: Upload) {
    SnapOk(T, u, snap) && (snap.sourceVersion.Some? ==> snap.sourceVersion.value == version)
  }

  /** From here on the invocation works on the pinned version, which a clean scan has covered. */
  ghost predicate Cleared(T: Table, u: Id, version: Id, snap: Upload) {
    Exact(T, u, version, snap) && snap.completed && (u, version) in T.log.clean
  }

  ghost predicate InvocationOk(T: Table, t: Invocation) {
    SignalOk(T, t) && LocalsOk(T, t)
  }

  lemma SnapStable(T: Table, T': Table, u: Id, snap: Upload)
    requires SnapOk(T, u, snap) && UploadsEvolve(T, T')
    ensures SnapOk(T', u, snap)
  {
    assert UploadEvolves(T, T', u);
  }

  /** Nobody else's step can invalidate what an invocation knows. */
  lemma InvocationStable(T: Table, T': Table, t: Invocation)
    requires InvocationOk(T, t) && Evolves(T, T')
    ensures InvocationOk(T', t)
  {
    assert UploadEvolves(T, T', t.u);
    if t.LoadScan? || t.SyncSummary? || t.LeaseCheck? || t.LeaseTry? || t.Validate? || t.Queue? {
      SnapStable(T, T', t.u, t.snap);
    }
  }

  // ----------------------------------------------------------------- safety

  lemma StartOk(T: Table, signal: Id, t: Invocation)
    requires Inv(T) && Starts(T, signal, t)
    ensures InvocationOk(T, t)
  {
  }

  predicate Scanning(t: Invocation) {
    t.ScanRead? || t.ScanPut? || t.Summary? || t.Reconcile? || t.LoadScan? || t.SyncSummary?
  }

  predicate Leasing(t: Invocation) {
    t.LeaseCheck? || t.LeaseTry? || t.LeaseRefresh? || t.Validate?
  }

  lemma ScanningTable(T: Table, t: Invocation, T': Table, n: Option<Invocation>)
    requires Scanning(t) && Inv(T) && SignalOk(T, t) && LocalsOk(T, t) && Steps(T, t, T', n)
    ensures Inv(T') && Evolves(T, T')
  {
    hide Inv, Evolves, PutScan, SetSummary, Steps;
    ScanningWrites(T, t, T', n);
    if t.ScanPut? { ScanKeeps(T, t.u, t.version, t.verdict, t.scanCompleted); }
    else if t.Summary? || t.SyncSummary? { SetSummaryKeeps(T, t.u, t.verdict, t.version); }
    else { DrawNothing(T); }
  }

  lemma ScanningWrites(T: Table, t: Invocation, T': Table, n: Option<Invocation>)
    requires Scanning(t) && Steps(T, t, T', n)
    ensures t.ScanPut? ==> T' == PutScan(T, t.u, t.version, t.verdict, t.scanCompleted)
    ensures t.Summary? || t.SyncSummary? ==> t.u in T.uploads && T' == SetSummary(T, t.u, t.verdict, t.version)
    ensures t.ScanRead? || t.Reconcile? || t.LoadScan? ==> T' == T
  {
    hide PutScan, SetSummary;
  }

  lemma LeasingTable(T: Table, t: Invocation, T': Table, n: Option<Invocation>)
    requires Leasing(t) && Inv(T) && SignalOk(T, t) && LocalsOk(T, t) && Steps(T, t, T', n)
    ensures Inv(T') && Evolves(T, T')
  {
    hide Inv, Evolves, LeaseValidation, CanLeaseValidation, PutObject, Steps;
    if T' == T { DrawNothing(T); return; }
    LeasingWrites(T, t, T', n);
    if t.LeaseTry? { LeaseValidationKeeps(T, t.u, t.version); }
    else { ObjectKeeps(T, ScreenObject(t.u, t.snap, t.version)); }
  }

  lemma LeasingWrites(T: Table, t: Invocation, T': Table, n: Option<Invocation>)
    requires Leasing(t) && Steps(T, t, T', n) && T' != T
    ensures t.LeaseTry? || t.Validate?
    ensures t.LeaseTry? ==> CanLeaseValidation(T, t.u, t.version) && T' == LeaseValidation(T, t.u)
    ensures t.Validate? ==> t.snap.run.Some? && T' == PutObject(T, ScreenObject(t.u, t.snap, t.version))
  {
    hide LeaseValidation, PutObject, ScreenObject;
  }

  lemma FinishingTable(T: Table, t: Invocation, T': Table, n: Option<Invocation>)
    requires !Scanning(t) && !Leasing(t) && Inv(T)
    requires SignalOk(T, t) && LocalsOk(T, t) && Steps(T, t, T', n)
    ensures Inv(T') && Evolves(T, T')
  {
    hide Inv, Evolves, CommitQueued, CanQueue, FailUpload, CanFailUpload, Acknowledge;
    match t
    case Queue(_, u, version, snap, token, staged) =>
      if CanQueue(T, u, snap.run.value, version, token) {
        CommitQueuedKeeps(T, u, snap.run.value, version, token, staged);
      } else {
        DrawNothing(T);
      }
    case Fail(_, u, version, code, disposition) =>
      if CanFailUpload(T, u) { FailUploadKeeps(T, u, code, disposition, version); }
      else { DrawNothing(T); }
    case Return(signal, _, _) => AcknowledgeKeeps(T, signal);
    case _ => DrawNothing(T);
  }

  /** Every step of the upload processor is safe for the table, whatever the others are doing. */
  lemma StepTable(T: Table, t: Invocation, T': Table, n: Option<Invocation>)
    requires Inv(T) && InvocationOk(T, t) && Steps(T, t, T', n)
    ensures Inv(T') && Evolves(T, T')
  {
    hide Inv, Evolves, SignalOk, LocalsOk, Steps;
    if Scanning(t) { ScanningTable(T, t, T', n); }
    else if Leasing(t) { LeasingTable(T, t, T', n); }
    else { FinishingTable(T, t, T', n); }
  }

  /** The next program point handles the same signal for the same upload. */
  predicate SameSubject(t: Invocation, n: Invocation) {
    && n.signal == t.signal && n.u == t.u
    && (n.ScanRead? || n.ScanPut? ==> t.ScanRead? && n.ScanPut? && n.version == t.version
                                      && (n.verdict.Clean? ==> t.verdict.Clean?))
  }

  lemma StepSubject(T: Table, t: Invocation, T': Table, n: Option<Invocation>)
    requires Steps(T, t, T', n) && n.Some?
    ensures SameSubject(t, n.value)
    ensures t.ScanPut? ==> (t.u, t.version) in T'.scans
  {
    hide SetSummary, LeaseValidation, CommitQueued, FailUpload, Acknowledge, PutObject, CanQueue, CanFailUpload,
         CanLeaseValidation;
  }

  lemma StepSignal(T: Table, t: Invocation, T': Table, n: Option<Invocation>)
    requires SignalOk(T, t) && Steps(T, t, T', n) && n.Some?
    requires UploadsEvolve(T, T') && Extends(T.signals, T'.signals) && T.scans.Keys <= T'.scans.Keys
    ensures SignalOk(T', n.value)
  {
    StepSubject(T, t, T', n);
    hide Steps;
    assert UploadEvolves(T, T', t.u);
  }

  predicate HasSnap(t: Invocation) {
    t.LoadScan? || t.SyncSummary? || t.LeaseCheck? || t.LeaseTry? || t.Validate? || t.Queue?
  }

  lemma ScanningLocals(T: Table, t: Invocation, T': Table, n: Option<Invocation>)
    requires Scanning(t) && ScansOk(T)
    requires SignalOk(T, t) && LocalsOk(T, t) && Steps(T, t, T', n) && n.Some?
    requires UploadOk(T, t.u) && t.u in T'.uploads && UploadForward(T.uploads[t.u], T'.uploads[t.u])
    requires HasSnap(t) ==> SnapOk(T', t.u, t.snap)
    requires T.log.clean <= T'.log.clean
    ensures LocalsOk(T', n.value)
  {
  }

  lemma LeasingLocals(T: Table, t: Invocation, T': Table, n: Option<Invocation>)
    requires Leasing(t)
    requires SignalOk(T, t) && LocalsOk(T, t) && Steps(T, t, T', n) && n.Some?
    requires UploadOk(T, t.u) && t.u in T'.uploads && UploadForward(T.uploads[t.u], T'.uploads[t.u])
    requires HasSnap(t) ==> SnapOk(T', t.u, t.snap)
    requires T.log.clean <= T'.log.clean
    ensures LocalsOk(T', n.value)
  {
    hide Inv, Steps, ScreenStaged, UploadOk, SignalOk, UploadTerminal, UploadForward, SnapOk;
    LeasingNext(T, t, T', n);
    if t.Validate? && n.value.Queue? { StagedNow(T, t, T', n); }
    if n.value.Return? { PastValidating(T.uploads[t.u], T'.uploads[t.u]); }
  }

  lemma PastValidating(U: Upload, U': Upload)
    requires UploadTerminal(U.status) && UploadForward(U, U')
    ensures Rank(U'.status) > Rank(Validating)
  {
  }

  lemma LeasingNext(T: Table, t: Invocation, T': Table, n: Option<Invocation>)
    requires Leasing(t) && Steps(T, t, T', n) && n.Some?
    ensures n.value.Return? ==>
      !n.value.waiting && n.value.u == t.u && t.u in T.uploads && UploadTerminal(T.uploads[t.u].status)
    ensures n.value.LeaseTry? || n.value.Validate? || n.value.Queue? ==>
      HasSnap(t) && n.value.u == t.u && n.value.version == t.version && n.value.snap == t.snap
    ensures n.value.Fail? ==> n.value.disposition.Rejected? || n.value.disposition.Hold?
    ensures n.value.Return? || n.value.LeaseTry? || n.value.Validate? || n.value.LeaseRefresh? || n.value.Fail?
            || (n.value.Queue? && t.Validate?)
  {
    hide PutObject, LeaseValidation, CanLeaseValidation, ScreenObject;
  }

  lemma StagedNow(T: Table, t: Invocation, T': Table, n: Option<Invocation>)
    requires t.Validate? && Steps(T, t, T', n) && n.Some? && n.value.Queue?
    ensures t.snap.run.Some? && ScreenStaged(T', t.u, t.snap.run.value, t.version, n.value.staged)
  {
    StagingPuts(T, t, T', n);
    hide Steps;
  }

  lemma StagingPuts(T: Table, t: Invocation, T': Table, n: Option<Invocation>)
    requires t.Validate? && Steps(T, t, T', n) && n.Some? && n.value.Queue?
    ensures t.snap.run.Some? && T' == PutObject(T, ScreenObject(t.u, t.snap, t.version))
    ensures n.value.staged == Ref(ScreenKey(t.snap.run.value, t.u), T.next)
  {
    hide PutObject, ScreenObject;
  }

  lemma FinishingLocals(T: Table, t: Invocation, T': Table, n: Option<Invocation>)
    requires !Scanning(t) && !Leasing(t)
    requires SignalOk(T, t) && LocalsOk(T, t) && Steps(T, t, T', n) && n.Some?
    requires UploadOk(T, t.u) && t.u in T'.uploads && UploadForward(T.uploads[t.u], T'.uploads[t.u])
    requires HasSnap(t) ==> SnapOk(T', t.u, t.snap)
    requires T.log.clean <= T'.log.clean
    ensures LocalsOk(T', n.value)
  {
  }

  lemma StepFacts(T: Table, t: Invocation, T': Table)
    requires Inv(T) && InvocationOk(T, t) && Evolves(T, T')
    ensures SignalOk(T, t) && LocalsOk(T, t) && UploadsEvolve(T, T') && UploadOk(T, t.u)
    ensures t.u in T'.uploads && UploadForward(T.uploads[t.u], T'.uploads[t.u])
    ensures HasSnap(t) ==> SnapOk(T', t.u, t.snap)
    ensures T.log.clean <= T'.log.clean && ScansOk(T)
    ensures Extends(T.signals, T'.signals) && T.scans.Keys <= T'.scans.Keys
  {
    UploadHolds(T, t.u);
    UploadAdvances(T, T', t.u);
    EvolvesParts(T, T');
    SnapStill(T, t, T');
    assert ScansOk(T);
  }

  lemma SnapStill(T: Table, t: Invocation, T': Table)
    requires LocalsOk(T, t) && UploadsEvolve(T, T')
    ensures HasSnap(t) ==> SnapOk(T', t.u, t.snap)
  {
    if HasSnap(t) { SnapStable(T, T', t.u, t.snap); }
  }

  lemma InvocationFrom(T: Table, t: Invocation)
    requires SignalOk(T, t) && LocalsOk(T, t)
    ensures InvocationOk(T, t)
  {
  }

  lemma StepInvocation(T: Table, t: Invocation, T': Table, n: Option<Invocation>)
    requires Inv(T) && InvocationOk(T, t) && Steps(T, t, T', n) && Evolves(T, T')
    requires n.Some?
    ensures InvocationOk(T', n.value)
  {
    StepFacts(T, t, T');
    hide *;
    StepSignal(T, t, T', n);
    if Scanning(t) { ScanningLocals(T, t, T', n); }
    else if Leasing(t) { LeasingLocals(T, t, T', n); }
    else { FinishingLocals(T, t, T', n); }
    InvocationFrom(T', n.value);
  }
}
