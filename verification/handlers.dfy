/** Whole handlers, run without interference on the table in place: what they return, and that they
    take exactly the steps that the protocol lets anybody else come between. */
module Handlers {
  import opened Records
  import opened Writes
  import opened Alone
  import opened Registry
  import opened WorkflowEvents
  import Up = UploadProcessor
  import Idp = IdpPostprocessor

  // ------------------------------------------------------------- reconciliation

  datatype Action =
    | WaitForScan | Reject | PutOnHold | WaitForClientComplete | WaitForExactScan | Validate

  /** `reconciliation_action`: the join decision as a pure function of the upload and one scan. */
  function ReconciliationAction(source: Option<Id>, completed: bool, scan: Option<(Verdict, Id)>): Action {
    match scan
    case None => WaitForScan
    case Some((verdict, version)) =>
      if verdict.Threats? then Reject
      else if !verdict.Clean? then PutOnHold
      else if !completed || source.None? then WaitForClientComplete
      else if Some(version) != source then WaitForExactScan
      else Validate
  }

  function Exact(U: Upload, requested: Id): Id {
    if U.sourceVersion.Some? then U.sourceVersion.value else requested
  }

  /** The decision on the scan of the exact version. */
  function ActionOn(T: Table, u: Id, requested: Id): Action
    requires u in T.uploads
  {
    var U := T.uploads[u];
    var exact := Exact(U, requested);
    ReconciliationAction(U.sourceVersion, U.completed,
                         if (u, exact) in T.scans then Some((T.scans[(u, exact)].verdict, exact)) else None)
  }

  /** What looking at the PDF comes to. */
  datatype Check = Fit | Unfit(code: Code, disposition: Status)

  datatype Outcome = WaitingForScan | WaitingForClientComplete | Blocked(disposition: Status) | Settled | Enqueued | Raised

  /** The invocation, left alone, gets from `t0` to `t`. */
  ghost predicate RunsTo(T0: Table, t0: Up.Invocation, T: Table, t: Up.Invocation) {
    Reaches(Up.Steps, T0, t0, T, Some(t))
  }

  lemma RunsOn(T0: Table, t0: Up.Invocation, T1: Table, t1: Up.Invocation, T: Table, t: Up.Invocation)
    requires RunsTo(T0, t0, T1, t1) && Up.Steps(T1, t1, T, Some(t))
    ensures RunsTo(T0, t0, T, t)
  {
    hide Reaches;
    Goes(Up.Steps, T0, t0, T1, t1, T, Some(t));
  }

  /** The invocation, left alone, gets from `t0` to a normal return. */
  ghost predicate ReturnsAlone(T0: Table, t0: Up.Invocation, T: Table, waiting: bool) {
    RunsTo(T0, t0, T, Up.Return(t0.signal, t0.u, waiting))
  }

  /** The upload's status is the one that the outcome reports. */
  predicate Landed(T: Table, u: Id, o: Outcome) {
    && (o.Enqueued? ==> u in T.uploads && T.uploads[u].status.Queued?)
    && (o.Blocked? ==> u in T.uploads && T.uploads[u].status == o.disposition)
  }

  predicate Waiting(o: Outcome) { o.WaitingForScan? || o.WaitingForClientComplete? }

  lemma Returned(T0: Table, t0: Up.Invocation, T: Table, t: Up.Invocation, T': Table, waiting: bool)
    requires RunsTo(T0, t0, T, t) && Up.Steps(T, t, T', Some(Up.Return(t0.signal, t0.u, waiting)))
    ensures ReturnsAlone(T0, t0, T', waiting)
  {
    RunsOn(T0, t0, T, t, T', Up.Return(t0.signal, t0.u, waiting));
  }

  /** Both rows show this disposition and code. */
  predicate Blocks(T: Table, u: Id, disposition: Status, code: Code) {
    && u in T.uploads && T.uploads[u].status == disposition && T.uploads[u].failureCode == Some(code)
    && T.uploads[u].document in T.documents
    && var D := T.documents[T.uploads[u].document];
    D.status == disposition && D.failureCode == Some(code)
  }

  /** Both rows are QUEUED on the pinned version, and what they name as screen input is its staged copy,
      with the way back to these rows in its metadata. */
  predicate IsQueued(T: Table, u: Id, run: Id, version: Id, staged: Ref) {
    && u in T.uploads && T.uploads[u].document in T.documents
    && var U, D := T.uploads[u], T.documents[T.uploads[u].document];
    && U.status == Queued && D.status == Queued && U.screenInput == Some(staged) && D.screenInput == Some(staged)
    && D.source == Some(Ref(SourceKey(u), version)) && U.lease.None? && U.failureCode.None? && D.failureCode.None?
    && staged.key == ScreenKey(run, u)
    && Find(T.objects, staged.version)
       == Some(Object(ScreenKey(run, u), CopyOf(version), Some(Locator(Screen, run, u, U.document))))
  }

  lemma FailSteps(T: Table, t: Up.Invocation)
    requires t.Fail? && CanFailUpload(T, t.u)
    ensures var T' := FailUpload(T, t.u, t.code, t.disposition, t.version);
      && Up.Steps(T, t, T', Some(Up.Return(t.signal, t.u, false)))
      && Blocks(T', t.u, t.disposition, t.code) && T'.uploads[t.u].lease.None? && T'.scans == T.scans
  {
  }

  lemma FailedAlready(T: Table, t: Up.Invocation)
    requires t.Fail? && !CanFailUpload(T, t.u) && t.u in T.uploads
    requires T.uploads[t.u].status == t.disposition && T.uploads[t.u].failureCode == Some(t.code)
    ensures var check := Up.FailCheck(t.signal, t.u, t.code, t.disposition);
      Up.Steps(T, t, T, Some(check)) && Up.Steps(T, check, T, Some(Up.Return(t.signal, t.u, false)))
  {
  }

  lemma ValidateSteps(T: Table, t: Up.Invocation)
    requires t.Validate? && t.snap.run.Some?
    ensures var staged := Ref(ScreenKey(t.snap.run.value, t.u), T.next);
      Up.Steps(T, t, PutObject(T, ScreenObject(t.u, t.snap, t.version)),
               Some(Up.Queue(t.signal, t.u, t.version, t.snap, t.token, staged)))
    ensures forall code, disposition: Status :: (disposition.Rejected? || disposition.Hold?) ==>
      Up.Steps(T, t, T, Some(Up.Fail(t.signal, t.u, t.version, code, disposition)))
  {
  }

  lemma QueueSteps(T: Table, t: Up.Invocation)
    requires t.Queue? && t.snap.run.Some? && CanQueue(T, t.u, t.snap.run.value, t.version, t.token)
    ensures var T' := CommitQueued(T, t.u, t.snap.run.value, t.version, t.token, t.staged);
      && Up.Steps(T, t, T', Some(Up.Return(t.signal, t.u, false)))
      && t.u in T'.uploads && T'.uploads[t.u].status.Queued?
    ensures Find(T.objects, t.staged.version) == Some(ScreenObject(t.u, T.uploads[t.u].(run := t.snap.run), t.version))
            && t.staged.key == ScreenKey(t.snap.run.value, t.u) ==>
      IsQueued(CommitQueued(T, t.u, t.snap.run.value, t.version, t.token, t.staged),
               t.u, t.snap.run.value, t.version, t.staged)
    ensures CommitQueued(T, t.u, t.snap.run.value, t.version, t.token, t.staged).scans == T.scans
  {
  }

  lemma QueuedAlready(T: Table, t: Up.Invocation)
    requires t.Queue? && t.snap.run.Some? && !CanQueue(T, t.u, t.snap.run.value, t.version, t.token)
    requires t.u in T.uploads && T.uploads[t.u].status.Queued? && T.uploads[t.u].screenInput.Some?
    requires T.uploads[t.u].screenInput.value.version == t.staged.version
    ensures var check := Up.QueueCheck(t.signal, t.u, t.staged);
      Up.Steps(T, t, T, Some(check)) && Up.Steps(T, check, T, Some(Up.Return(t.signal, t.u, false)))
  {
  }

  lemma LeaseSettled(T: Table, t: Up.Invocation)
    requires t.LeaseCheck? && t.u in T.uploads && UploadTerminal(T.uploads[t.u].status)
    ensures Up.Steps(T, t, T, Some(Up.Return(t.signal, t.u, false)))
  {
  }

  lemma LeaseAttempted(T: Table, t: Up.Invocation)
    requires t.LeaseCheck? && t.u in T.uploads && !UploadTerminal(T.uploads[t.u].status)
    ensures Up.Steps(T, t, T, Some(Up.LeaseTry(t.signal, t.u, t.version, t.snap)))
  {
  }

  lemma LeaseGranted(T: Table, t: Up.Invocation)
    requires t.LeaseTry? && CanLeaseValidation(T, t.u, t.version)
    ensures t.u in T.uploads && t.u in LeaseValidation(T, t.u).uploads
    ensures Up.Steps(T, t, LeaseValidation(T, t.u),
                     Some(Up.Validate(t.signal, t.u, t.version, t.snap, T.next)))
  {
  }

  /** Staging writes no upload row. */
  lemma StagingKeeps(T: Table, t: Up.Invocation)
    requires t.Validate? && t.snap.run.Some?
    ensures PutObject(T, ScreenObject(t.u, t.snap, t.version)).uploads == T.uploads
    ensures PutObject(T, ScreenObject(t.u, t.snap, t.version)).documents == T.documents
    ensures PutObject(T, ScreenObject(t.u, t.snap, t.version)).scans == T.scans
    ensures Find(PutObject(T, ScreenObject(t.u, t.snap, t.version)).objects, T.next) ==
      Some(ScreenObject(t.u, t.snap, t.version))
    ensures CanQueue(T, t.u, t.snap.run.value, t.version, t.token) <==>
      CanQueue(PutObject(T, ScreenObject(t.u, t.snap, t.version)), t.u, t.snap.run.value, t.version, t.token)
  {
  }

  lemma StagedKey(t: Up.Invocation)
    requires t.Validate? && t.snap.run.Some?
    ensures ScreenObject(t.u, t.snap, t.version).key == ScreenKey(t.snap.run.value, t.u)
    ensures forall U: Upload :: U.document == t.snap.document ==>
      ScreenObject(t.u, U.(run := t.snap.run), t.version) == ScreenObject(t.u, t.snap, t.version)
  {
  }

  /** `transition_failure`, with its re-read if the transaction is refused. */
  method TransitionFailure(
    r: RegistryTable, t: Up.Invocation, ghost T0: Table, ghost t0: Up.Invocation) returns (ok: bool)
    requires t.Fail? && t.signal == t0.signal && t.u == t0.u && t.u in r.uploads
    requires RunsTo(T0, t0, r.View(), t)
    modifies r
    ensures ok ==>
      t.u in r.uploads && r.uploads[t.u].status == t.disposition && r.uploads[t.u].failureCode == Some(t.code)
    ensures ok ==> ReturnsAlone(T0, t0, r.View(), false)
    ensures CanFailUpload(old(r.View()), t.u) ==>
      ok && Blocks(r.View(), t.u, t.disposition, t.code) && r.uploads[t.u].lease.None?
    ensures !CanFailUpload(old(r.View()), t.u) ==> r.View() == old(r.View())
    ensures r.scans == old(r.scans)
  {
    hide Up.Steps, RunsTo, ReturnsAlone, FailUpload;
    ghost var T := r.View();
    ok := r.TryFailUpload(t.u, t.code, t.disposition, t.version);
    if ok {
      FailSteps(T, t);
      Returned(T0, t0, T, t, r.View(), false);
    } else if r.uploads[t.u].status == t.disposition && r.uploads[t.u].failureCode == Some(t.code) {
      ok := true;
      FailedAlready(T, t);
      ghost var check := Up.FailCheck(t.signal, t.u, t.code, t.disposition);
      RunsOn(T0, t0, T, t, T, check);
      Returned(T0, t0, T, check, T, false);
    }
  }

  /** The upload is QUEUED with exactly this staged version: an earlier attempt of the commit went through. */
  predicate StagedAs(U: Upload, version: Id) {
    U.status == Queued && U.screenInput.Some? && U.screenInput.value.version == version
  }

  /** The leased half of `reconcile`: look at the PDF, stage it, and queue it. */
  method ValidateAndQueue(
    r: RegistryTable, t: Up.Invocation, check: Check, ghost T0: Table, ghost t0: Up.Invocation)
    returns (o: Outcome)
    requires t.Validate? && t.signal == t0.signal && t.u == t0.u && t.u in r.uploads && t.snap.run.Some?
    requires check.Unfit? ==> check.disposition.Rejected? || check.disposition.Hold?
    requires RunsTo(T0, t0, r.View(), t)
    modifies r
    ensures !Waiting(o) && !o.Settled?
    ensures Landed(r.View(), t.u, o)
    ensures !o.Raised? ==> ReturnsAlone(T0, t0, r.View(), false)
    ensures o.Enqueued? ==> old(r.uploads)[t.u].scan == Some(Clean) || StagedAs(old(r.uploads)[t.u], old(r.next))
    ensures check.Fit? && !CanQueue(old(r.View()), t.u, t.snap.run.value, t.version, t.token) ==>
      r.uploads == old(r.uploads) && r.documents == old(r.documents)
      && (o.Enqueued? <==> StagedAs(old(r.uploads)[t.u], old(r.next)))
    ensures check.Fit? && CanQueue(old(r.View()), t.u, t.snap.run.value, t.version, t.token) ==> o.Enqueued?
    ensures check.Fit? && CanQueue(old(r.View()), t.u, t.snap.run.value, t.version, t.token)
            && old(r.uploads)[t.u].document == t.snap.document ==>
      IsQueued(r.View(), t.u, t.snap.run.value, t.version, Ref(ScreenKey(t.snap.run.value, t.u), old(r.next)))
    ensures check.Unfit? && CanFailUpload(old(r.View()), t.u) ==>
      o == Blocked(check.disposition) && Blocks(r.View(), t.u, check.disposition, check.code)
    ensures r.scans == old(r.scans)
  {
    hide Up.Steps, RunsTo, ReturnsAlone, CommitQueued, CanQueue, CanFailUpload, PutObject, ScreenObject;
    ghost var T := r.View();
    ValidateSteps(T, t);
    if check.Unfit? {
      var fail := Up.Fail(t.signal, t.u, t.version, check.code, check.disposition);
      RunsOn(T0, t0, T, t, T, fail);
      var ok := TransitionFailure(r, fail, T0, t0);
      return if ok then Blocked(check.disposition) else Raised;
    }
    var staged := r.WriteObject(ScreenObject(t.u, t.snap, t.version));
    StagingKeeps(T, t);
    StagedKey(t);
    ghost var T1 := r.View();
    ghost var queue := Up.Queue(t.signal, t.u, t.version, t.snap, t.token, staged);
    RunsOn(T0, t0, T, t, T1, queue);
    var ok := r.TryCommitQueued(t.u, t.snap.run.value, t.version, t.token, staged);
    if ok {
      QueueSteps(T1, queue);
      Returned(T0, t0, T1, queue, r.View(), false);
      return Enqueued;
    }
    var U := r.uploads[t.u];
    if U.status.Queued? && U.screenInput.Some? && U.screenInput.value.version == staged.version {
      QueuedAlready(T1, queue);
      ghost var recheck := Up.QueueCheck(t.signal, t.u, staged);
      RunsOn(T0, t0, T1, queue, T1, recheck);
      Returned(T0, t0, T1, recheck, T1, false);
      return Enqueued;
    }
    return Raised;
  }

  /** Nothing stands in the way of queueing: the lease can be had, and the document still waits for
      this upload and run. */
  predicate Unhindered(T: Table, u: Id, version: Id) {
    && CanLeaseValidation(T, u, version) && T.uploads[u].run.Some?
    && T.uploads[u].document in T.documents
    && var D := T.documents[T.uploads[u].document];
    D.currentUpload == Some(u) && D.run == T.uploads[u].run && D.status.Validating?
  }

  function CheckedAs(check: Check): Outcome {
    if check.Fit? then Enqueued else Blocked(check.disposition)
  }

  lemma LeaseReady(T: Table, u: Id, version: Id)
    requires Unhindered(T, u, version)
    ensures CanFailUpload(LeaseValidation(T, u), u)
    ensures T.uploads[u].scan == Some(Clean) ==>
      CanQueue(LeaseValidation(T, u), u, T.uploads[u].run.value, version, T.next)
  {
  }

  lemma SyncReady(T: Table, u: Id, verdict: Verdict, version: Id)
    requires u in T.uploads
    ensures var T' := SetSummary(T, u, verdict, version);
      && u in T'.uploads && T'.uploads[u].scan == Some(verdict) && T'.uploads[u].run == T.uploads[u].run
      && T'.uploads[u].status == T.uploads[u].status
      && (CanFailUpload(T, u) ==> CanFailUpload(T', u))
      && (Unhindered(T, u, version) ==> Unhindered(T', u, version))
  {
  }

  lemma LeaseOutlook(T: Table, t: Up.Invocation)
    requires t.LeaseCheck? && Unhindered(T, t.u, t.version)
    ensures CanLeaseValidation(T, t.u, t.version) && t.u in T.uploads && !UploadTerminal(T.uploads[t.u].status)
    ensures CanFailUpload(LeaseValidation(T, t.u), t.u)
    ensures T.uploads[t.u].scan == Some(Clean) && T.uploads[t.u].run == t.snap.run && t.snap.run.Some? ==>
      CanQueue(LeaseValidation(T, t.u), t.u, t.snap.run.value, t.version, T.next)
  {
    hide LeaseValidation;
    LeaseReady(T, t.u, t.version);
  }

  /** Client and scanner have both pointed at this version, and nobody has acted on it yet. */
  predicate JoinedOn(U: Upload, version: Id) {
    U.status == Validating && U.completed && U.sourceVersion == Some(version)
  }

  predicate SameBeginning(U: Upload, snap: Upload) { U.run == snap.run && U.document == snap.document }

  /** What a look at the PDF that nobody disturbs leaves on both rows. */
  predicate Came(T: Table, u: Id, run: Id, version: Id, check: Check) {
    if check.Fit? then
      u in T.uploads && T.uploads[u].screenInput.Some? && IsQueued(T, u, run, version, T.uploads[u].screenInput.value)
    else Blocks(T, u, check.disposition, check.code)
  }

  lemma LeasedRow(T: Table, u: Id)
    requires u in T.uploads
    ensures var T' := LeaseValidation(T, u);
      u in T'.uploads && T'.uploads[u] == T.uploads[u].(lease := T'.uploads[u].lease) && T'.scans == T.scans
  {
  }

  lemma QueuedHere(T: Table, u: Id, run: Id, version: Id, staged: Ref)
    requires IsQueued(T, u, run, version, staged)
    ensures u in T.uploads && T.uploads[u].screenInput == Some(staged)
  {
  }

  /** `acquire_validation_lease` and what follows it. */
  method LeaseAndValidate(
    r: RegistryTable, t: Up.Invocation, check: Check, ghost T0: Table, ghost t0: Up.Invocation)
    returns (o: Outcome)
    requires t.LeaseCheck? && t.signal == t0.signal && t.u == t0.u && t.u in r.uploads && t.snap.run.Some?
    requires check.Unfit? ==> check.disposition.Rejected? || check.disposition.Hold?
    requires RunsTo(T0, t0, r.View(), t)
    modifies r
    ensures !Waiting(o)
    ensures o.Settled? <==> UploadTerminal(old(r.uploads)[t.u].status)
    ensures o.Settled? <==> old(r.uploads)[t.u].status in {Queued, Extracting, Succeeded, Hold, Rejected, Failed}
    ensures o.Settled? ==> r.View() == old(r.View())
    ensures Landed(r.View(), t.u, o)
    ensures !o.Raised? ==> ReturnsAlone(T0, t0, r.View(), false)
    ensures (!UploadTerminal(old(r.uploads)[t.u].status)
             && !CanLeaseValidation(old(r.View()), t.u, t.version)) ==> (o.Raised? && r.View() == old(r.View()))
    ensures o.Enqueued? ==> JoinedOn(old(r.uploads)[t.u], t.version) && old(r.uploads)[t.u].scan == Some(Clean)
    ensures (Unhindered(old(r.View()), t.u, t.version) && old(r.uploads)[t.u].scan == Some(Clean)
             && SameBeginning(old(r.uploads)[t.u], t.snap)) ==>
      o == CheckedAs(check) && Came(r.View(), t.u, t.snap.run.value, t.version, check)
    ensures r.scans == old(r.scans)
  {
    hide Up.Steps, RunsTo, ReturnsAlone, LeaseValidation, CanLeaseValidation, UploadTerminal, CanQueue, CanFailUpload,
         Unhindered, Landed, IsQueued, Blocks;
    Unlanded(r.View(), t.u);
    Settles(r.uploads[t.u].status);
    ghost var T := r.View();
    if Unhindered(T, t.u, t.version) { LeaseOutlook(T, t); }
    if UploadTerminal(r.uploads[t.u].status) {
      LeaseSettled(T, t);
      Returned(T0, t0, T, t, T, false);
      return Settled;
    }
    LeaseAttempted(T, t);
    ghost var attempt := Up.LeaseTry(t.signal, t.u, t.version, t.snap);
    RunsOn(T0, t0, T, t, T, attempt);
    var token := r.TryValidationLease(t.u, t.version);
    if token.None? { return Raised; }
    LeaseGranted(T, attempt);
    LeasedRow(T, t.u);
    var validate := Up.Validate(t.signal, t.u, t.version, t.snap, token.value);
    RunsOn(T0, t0, T, attempt, r.View(), validate);
    ghost var staged := Ref(ScreenKey(t.snap.run.value, t.u), r.next);
    o := ValidateAndQueue(r, validate, check, T0, t0);
    if IsQueued(r.View(), t.u, t.snap.run.value, t.version, staged) {
      QueuedHere(r.View(), t.u, t.snap.run.value, t.version, staged);
    }
  }

  lemma Settles(status: Status)
    ensures UploadTerminal(status) <==> status in {Queued, Extracting, Succeeded, Hold, Rejected, Failed}
  {
  }

  lemma Unlanded(T: Table, u: Id)
    ensures Landed(T, u, Settled) && Landed(T, u, Raised)
  {
  }

  lemma LoadSteps(T: Table, signal: Id, u: Id, requested: Id)
    requires u in T.uploads
    ensures var U := T.uploads[u];
      var exact := Exact(U, requested);
      var load := Up.LoadScan(signal, u, exact, U);
      && Up.Steps(T, Up.Reconcile(signal, u, requested), T, Some(load))
      && Up.Steps(T, load, T,
           Some(if (u, exact) in T.scans then Up.SyncSummary(signal, u, exact, U, T.scans[(u, exact)].verdict)
                else Up.Return(signal, u, true)))
  {
  }

  lemma SyncSteps(T: Table, t: Up.Invocation)
    requires t.SyncSummary? && t.u in T.uploads
    ensures var T' := SetSummary(T, t.u, t.verdict, t.version);
      && t.u in T'.uploads && SameBeginning(T'.uploads[t.u], T.uploads[t.u])
      && T'.uploads[t.u].completed == T.uploads[t.u].completed && T'.uploads[t.u].status == T.uploads[t.u].status
      && T'.scans == T.scans
      && Up.Steps(T, t, T',
           Some(if !t.verdict.Clean? then Up.FailScan(t.signal, t.u, t.version, t.verdict)
                else if !t.snap.completed || t.snap.sourceVersion.None? then Up.Return(t.signal, t.u, true)
                else Up.LeaseCheck(t.signal, t.u, t.version, t.snap)))
  {
  }

  /** Threats reject, a contradiction or any other unclean verdict holds, each under its own code. */
  predicate BlockedBy(T: Table, u: Id, disposition: Status, verdict: Verdict) {
    match verdict
    case Threats => disposition == Rejected && Blocks(T, u, Rejected, MalwareDetected)
    case Conflict => disposition == Hold && Blocks(T, u, Hold, ScanConflict)
    case _ => disposition == Hold && Blocks(T, u, Hold, ScanInconclusive(verdict))
  }

  lemma FailScanBlocks(T: Table, signal: Id, u: Id, version: Id, verdict: Verdict)
    ensures var t := Up.FailScan(signal, u, version, verdict);
      Blocks(T, u, t.disposition, t.code) ==> BlockedBy(T, u, t.disposition, verdict)
  {
  }

  /** `reconcile`. Its answer follows the pure decision on the scan of the exact version. */
  method Reconcile(r: RegistryTable, signal: Id, u: Id, requested: Id, check: Check) returns (o: Outcome)
    requires u in r.uploads && (r.uploads[u].completed ==> r.uploads[u].run.Some?)
    requires check.Unfit? ==> check.disposition.Rejected? || check.disposition.Hold?
    modifies r
    ensures o.WaitingForScan? <==> ActionOn(old(r.View()), u, requested).WaitForScan?
    ensures o.WaitingForScan? ==> r.View() == old(r.View())
    ensures o.WaitingForClientComplete? <==> ActionOn(old(r.View()), u, requested).WaitForClientComplete?
    ensures ActionOn(old(r.View()), u, requested).Reject? ==> o.Raised? || o == Blocked(Rejected)
    ensures ActionOn(old(r.View()), u, requested).PutOnHold? ==> o.Raised? || o == Blocked(Hold)
    ensures ((ActionOn(old(r.View()), u, requested).Reject? || ActionOn(old(r.View()), u, requested).PutOnHold?)
             && CanFailUpload(old(r.View()), u)) ==> !o.Raised?
    ensures (ActionOn(old(r.View()), u, requested).Validate?
             && Unhindered(old(r.View()), u, Exact(old(r.View()).uploads[u], requested))) ==> o == CheckedAs(check)
    ensures var U := old(r.uploads)[u];
      var v := if U.sourceVersion.Some? then U.sourceVersion.value else requested;
      if (u, v) !in old(r.scans) then o == WaitingForScan
      else if old(r.scans)[(u, v)].verdict != Clean then
        CanFailUpload(old(r.View()), u) ==>
          o.Blocked? && BlockedBy(r.View(), u, o.disposition, old(r.scans)[(u, v)].verdict)
      else if !U.completed || U.sourceVersion.None? then o == WaitingForClientComplete
      else
        && (o.Enqueued? ==> U.status == Validating)
        && (Unhindered(old(r.View()), u, v) ==> Came(r.View(), u, U.run.value, v, check))
    ensures r.scans == old(r.scans)
    ensures o.Enqueued? || o.Settled? ==> ActionOn(old(r.View()), u, requested).Validate?
    ensures !ActionOn(old(r.View()), u, requested).WaitForExactScan?
    ensures Landed(r.View(), u, o)
    ensures !o.Raised? ==> ReturnsAlone(old(r.View()), Up.Reconcile(signal, u, requested), r.View(), Waiting(o))
  {
    hide Up.Steps, ReturnsAlone, SetSummary, UploadTerminal, CanLeaseValidation, CanFailUpload, Unhindered, Blocks,
         BlockedBy, Came;
    ghost var T0, t0 := r.View(), Up.Reconcile(signal, u, requested);
    Begins(Up.Steps, T0, t0);
    hide RunsTo;
    LoadSteps(T0, signal, u, requested);
    var U := r.uploads[u];
    var exact := Exact(U, requested);
    ghost var load := Up.LoadScan(signal, u, exact, U);
    RunsOn(T0, t0, T0, t0, T0, load);
    if (u, exact) !in r.scans {
      Returned(T0, t0, T0, load, T0, true);
      return WaitingForScan;
    }
    var verdict := r.scans[(u, exact)].verdict;
    ghost var sync := Up.SyncSummary(signal, u, exact, U, verdict);
    RunsOn(T0, t0, T0, load, T0, sync);
    SyncSteps(T0, sync);
    SyncReady(T0, u, verdict, exact);
    r.SyncSummary(u, verdict, exact);
    ghost var T1 := r.View();
    if !verdict.Clean? {
      var fail := Up.FailScan(signal, u, exact, verdict);
      RunsOn(T0, t0, T0, sync, T1, fail);
      var ok := TransitionFailure(r, fail, T0, t0);
      FailScanBlocks(r.View(), signal, u, exact, verdict);
      return if ok then Blocked(fail.disposition) else Raised;
    }
    if !U.completed || U.sourceVersion.None? {
      Returned(T0, t0, T0, sync, T1, true);
      return WaitingForClientComplete;
    }
    var lease := Up.LeaseCheck(signal, u, exact, U);
    RunsOn(T0, t0, T0, sync, T1, lease);
    o := LeaseAndValidate(r, lease, check, T0, t0);
  }

  // ---------------------------------------------------------------- scan reports

  lemma ScanSteps(T: Table, t: Up.Invocation, verdict: Verdict)
    requires t.ScanRead?
    requires verdict == if (t.u, t.version) in T.scans && T.scans[(t.u, t.version)].verdict != t.verdict
                        then Conflict else t.verdict
    ensures var put := Up.ScanPut(t.signal, t.u, t.version, verdict, t.scanCompleted, t.seen);
      && Up.Steps(T, t, T, Some(put))
      && Up.Steps(T, put, PutScan(T, t.u, t.version, verdict, t.scanCompleted),
                  Some(Up.Summary(t.signal, t.u, t.version, verdict, t.seen)))
  {
    hide PutScan;
  }

  lemma SummarySteps(T: Table, t: Up.Invocation)
    requires t.Summary? && t.u in T.uploads
    ensures Up.Steps(T, t, SetSummary(T, t.u, t.verdict, t.version),
              Some(if !t.seen && t.verdict != Clean then Up.FailScan(t.signal, t.u, t.version, t.verdict)
                   else Up.Reconcile(t.signal, t.u, t.version)))
  {
    hide SetSummary;
  }

  /** `record_scan`: a report that contradicts the recorded one leaves a contradiction on record. */
  method RecordScan(r: RegistryTable, t: Up.Invocation, ghost T0: Table, ghost t0: Up.Invocation)
    returns (verdict: Verdict)
    requires t.ScanRead? && t.u in r.uploads && RunsTo(T0, t0, r.View(), t)
    modifies r
    ensures verdict == if (t.u, t.version) in old(r.scans) && old(r.scans)[(t.u, t.version)].verdict != t.verdict
                       then Conflict else t.verdict
    ensures r.scans == old(r.scans)[(t.u, t.version) := Scan(verdict, t.scanCompleted)]
    ensures r.documents == old(r.documents)
    ensures r.uploads == old(r.uploads)[
      t.u := old(r.uploads)[t.u].(scan := Some(verdict), scanVersion := Some(t.version))]
    ensures RunsTo(T0, t0, r.View(),
      if !t.seen && verdict != Clean then Up.FailScan(t.signal, t.u, t.version, verdict)
      else Up.Reconcile(t.signal, t.u, t.version))
  {
    hide Up.Steps, RunsTo;
    ghost var T := r.View();
    verdict := t.verdict;
    if (t.u, t.version) in r.scans && r.scans[(t.u, t.version)].verdict != t.verdict { verdict := Conflict; }
    ScanSteps(T, t, verdict);
    ghost var put := Up.ScanPut(t.signal, t.u, t.version, verdict, t.scanCompleted, t.seen);
    ghost var summary := Up.Summary(t.signal, t.u, t.version, verdict, t.seen);
    RunsOn(T0, t0, T, t, T, put);
    r.WriteScan(t.u, t.version, verdict, t.scanCompleted);
    ghost var T1 := r.View();
    RunsOn(T0, t0, T, put, T1, summary);
    SummarySteps(T1, summary);
    r.SyncSummary(t.u, verdict, t.version);
    RunsOn(T0, t0, T1, summary, r.View(),
      if !t.seen && verdict != Clean then Up.FailScan(t.signal, t.u, t.version, verdict)
      else Up.Reconcile(t.signal, t.u, t.version));
  }

  /** The verdict that a report comes to by itself: unknown results fail, and only a completed scan is clean. */
  lemma ReportedAs(scanCompleted: bool, raw: Option<Verdict>)
    ensures var verdict := NormalizeVerdict(scanCompleted, raw);
      && (verdict == Clean <==> scanCompleted && raw == Some(Clean))
      && (raw in {Some(Threats), Some(Unsupported), Some(AccessDenied)} ==> Some(verdict) == raw)
      && (raw !in {Some(Clean), Some(Threats), Some(Unsupported), Some(AccessDenied)} ==> verdict == ScanFailed)
      && (raw == Some(Clean) && !scanCompleted ==> verdict == ScanFailed)
  {
  }

  /** `handler` on a GuardDuty report: `seen` is whether the index showed a pinned version. */
  method HandleReport(
    r: RegistryTable, signal: Id, u: Id, version: Id, scanCompleted: bool, raw: Option<Verdict>, seen: bool, check: Check)
    returns (o: Outcome)
    requires u in r.uploads && (r.uploads[u].completed ==> r.uploads[u].run.Some?)
    requires check.Unfit? ==> check.disposition.Rejected? || check.disposition.Hold?
    modifies r
    ensures (u, version) in r.scans
    ensures var verdict := r.scans[(u, version)].verdict;
      && (verdict == Clean ==>
            && scanCompleted && raw == Some(Clean)
            && ((u, version) in old(r.scans) ==> old(r.scans)[(u, version)].verdict == Clean))
      && (raw == Some(Threats) && (u, version) !in old(r.scans) ==> verdict == Threats)
      && ((u, version) in old(r.scans) ==>
            (old(r.scans)[(u, version)].verdict != NormalizeVerdict(scanCompleted, raw) ==> verdict == Conflict))
      && (!seen && verdict != Clean && CanFailUpload(old(r.View()), u) ==>
            o.Blocked? && BlockedBy(r.View(), u, o.disposition, verdict))
    ensures !o.Raised? ==>
      ReturnsAlone(old(r.View()),
        Up.ScanRead(signal, u, version, NormalizeVerdict(scanCompleted, raw), scanCompleted, seen), r.View(), Waiting(o))
  {
    hide Up.Steps, Reaches, NormalizeVerdict, Blocks, BlockedBy, Came, Unhindered, ActionOn;
    ReportedAs(scanCompleted, raw);
    ghost var T0 := r.View();
    var t0 := Up.ScanRead(signal, u, version, NormalizeVerdict(scanCompleted, raw), scanCompleted, seen);
    Begins(Up.Steps, T0, t0);
    var verdict := RecordScan(r, t0, T0, t0);
    if !seen && verdict != Clean {
      var fail := Up.FailScan(signal, u, version, verdict);
      var ok := TransitionFailure(r, fail, T0, t0);
      FailScanBlocks(r.View(), signal, u, version, verdict);
      return if ok then Blocked(fail.disposition) else Raised;
    }
    ghost var T1 := r.View();
    o := Reconcile(r, signal, u, version, check);
    if !o.Raised? {
      GoesOn(Up.Steps, T0, t0, T1, Up.Reconcile(signal, u, version), r.View(), Some(Up.Return(signal, u, Waiting(o))));
    }
  }

  // ------------------------------------------------------------ workflow events

  /** Both rows have failed under this event, and its execution is over. */
  predicate FailedBy(T: Table, e: Idp.Event, route: Idp.Route)
    requires FailureOf(e)
  {
    && route.d in T.documents && route.u in T.uploads
    && var D, U := T.documents[route.d], T.uploads[route.u];
    && D.status == Failed && U.status == Failed
    && D.failureCode == Some(WorkflowEnded(route.stage, e.status.kind)) && U.failureCode == D.failureCode
    && D.terminalKind == Some(e.status.kind) && D.failedExecution == e.execution && D.lease.None?
    && Find(T.lookups, LookupKey(route.u, route.stage, e.execution.value))
       == Some(Lookup(route.run, route.d, LookupEnded(e.status.kind), None))
  }

  lemma FailedNow(T: Table, e: Idp.Event, route: Idp.Route)
    requires FailureOf(e) && CanFailWorkflow(T, route.d, route.u, route.run, route.stage)
    ensures FailedBy(FailWorkflow(T, route.d, route.u, route.run, route.stage, e.status.kind, e.execution.value), e, route)
  {
  }

  lemma FailureRuns(T: Table, e: Idp.Event, route: Idp.Route, T': Table)
    requires FailureOf(e) && HandleFailure(T, e, route) == Some(T')
    ensures Reaches(Idp.Steps, T, Idp.Decide(e, route), T', None)
  {
    hide Idp.Steps, Reaches, HandleFailure;
    HandledBySteps(T, e, route, T');
    var n :| Idp.Steps(T, Idp.Decide(e, route), T, Some(n)) && Idp.Steps(T, n, T', None);
    Begins(Idp.Steps, T, Idp.Decide(e, route));
    Goes(Idp.Steps, T, Idp.Decide(e, route), T, Idp.Decide(e, route), T, Some(n));
    Goes(Idp.Steps, T, Idp.Decide(e, route), T, n, T', None);
  }

  /** `transition_workflow_failure`; false stands for a raise. If both rows are at the event's stage, carry
      its run and the upload is current, they fail; if the document is at another stage, or has failed by
      this very execution, only the watchdog marker goes. */
  method TransitionWorkflowFailure(r: RegistryTable, e: Idp.Event, route: Idp.Route) returns (ok: bool)
    requires FailureOf(e)
    modifies r
    ensures ok <==> HandleFailure(old(r.View()), e, route).Some?
    ensures r.View() == if ok then HandleFailure(old(r.View()), e, route).value else old(r.View())
    ensures ok ==> Reaches(Idp.Steps, old(r.View()), Idp.Decide(e, route), r.View(), None)
    ensures (route.d in old(r.documents) && route.u in old(r.uploads)
             && old(r.documents)[route.d].currentUpload == Some(route.u)
             && old(r.documents)[route.d].run == Some(route.run) && old(r.uploads)[route.u].run == Some(route.run)
             && StageAllows(route.stage, old(r.documents)[route.d].status)
             && StageAllows(route.stage, old(r.uploads)[route.u].status)) ==>
      ok && FailedBy(r.View(), e, route)
    ensures route.d in old(r.documents) && !StageAllows(route.stage, old(r.documents)[route.d].status) ==>
      ok && r.documents == old(r.documents) && r.uploads == old(r.uploads)
  {
    if route.d !in r.documents { return false; }
    var k := LookupKey(route.u, route.stage, e.execution.value);
    var action := Idp.ActionFor(r.documents[route.d], route.stage, e.status.kind, e.execution.value);
    ghost var T := r.View();
    if !action.Apply? {
      r.ClearActiveExecution(k);
      FailureRuns(T, e, route, r.View());
      return true;
    }
    ok := r.TryFailWorkflow(route.d, route.u, route.run, route.stage, e.status.kind, e.execution.value);
    if ok {
      FailureRuns(T, e, route, r.View());
      FailedNow(T, e, route);
    }
  }

  /** The row changed only from QUEUED to SCREENING, if at all. */
  predicate OnlyScreened(from: Status, to: Status) { from.Queued? && to.Screening? }

  lemma DocumentRow(T: Table, d: Id, D': Document)
    requires d in T.documents && OnlyScreened(T.documents[d].status, D'.status)
    ensures var T' := PutDocument(T, d, D');
      && T'.uploads == T.uploads && T'.lookups == T.lookups && T'.documents.Keys == T.documents.Keys
      && forall x :: x in T'.documents && T'.documents[x] != T.documents[x] ==>
           x == d && OnlyScreened(T.documents[x].status, T'.documents[x].status)
  {
  }

  lemma UploadRow(T: Table, u: Id, U': Upload)
    requires u in T.uploads && (U' == T.uploads[u] || OnlyScreened(T.uploads[u].status, U'.status))
    ensures var T' := PutUpload(T, u, U');
      && T'.documents == T.documents && T'.lookups == T.lookups && T'.uploads.Keys == T.uploads.Keys
      && forall x :: x in T'.uploads && T'.uploads[x] != T.uploads[x] ==>
           x == u && OnlyScreened(T.uploads[x].status, T'.uploads[x].status)
  {
  }

  ghost predicate DocumentsScreened(T: Table, T': Table, d: Id, stage: Stage) {
    && T'.uploads == T.uploads && T'.lookups == T.lookups && T'.documents.Keys == T.documents.Keys
    && forall x :: x in T'.documents && T'.documents[x] != T.documents[x] ==>
         x == d && stage.Screen? && OnlyScreened(T.documents[x].status, T'.documents[x].status)
  }

  ghost predicate UploadsScreened(T: Table, T': Table, u: Id, stage: Stage) {
    && T'.documents == T.documents && T'.lookups == T.lookups && T'.uploads.Keys == T.uploads.Keys
    && forall x :: x in T'.uploads && T'.uploads[x] != T.uploads[x] ==>
         x == u && stage.Screen? && OnlyScreened(T.uploads[x].status, T'.uploads[x].status)
  }

  lemma RunningDocuments(T: Table, d: Id, stage: Stage, run: Id)
    requires d in T.documents
    ensures DocumentsScreened(T, AdvanceDocument(T, d, stage, run), d, stage)
  {
    var D := T.documents[d];
    if stage.Screen? && CanScreen(D.status, D.run, run) {
      assert AdvanceDocument(T, d, stage, run) == PutDocument(T, d, D.(status := Screening));
      hide AdvanceDocument, PutDocument;
      if D.status.Queued? { DocumentRow(T, d, D.(status := Screening)); }
      else { SameDocument(T, d); }
    }
  }

  lemma SameDocument(T: Table, d: Id)
    requires d in T.documents && T.documents[d].status.Screening?
    ensures DocumentsScreened(T, PutDocument(T, d, T.documents[d].(status := Screening)), d, Screen)
  {
  }

  lemma RunningUploads(T: Table, u: Id, stage: Stage, run: Id)
    requires u in T.uploads
    ensures UploadsScreened(T, AdvanceUpload(T, u, stage, run), u, stage)
  {
    var U := T.uploads[u];
    if stage.Screen? && CanScreen(U.status, U.run, run) {
      assert AdvanceUpload(T, u, stage, run) == PutUpload(T, u, U.(status := Screening));
      hide AdvanceUpload, PutUpload;
      UploadRow(T, u, U.(status := Screening));
    } else if stage.Full? && CanExtract(U.status, U.run, run) {
      assert AdvanceUpload(T, u, stage, run) == PutUpload(T, u, U);
      hide AdvanceUpload, PutUpload;
      UploadRow(T, u, U);
      UploadSame(T, u);
    }
  }

  lemma UploadSame(T: Table, u: Id)
    requires u in T.uploads
    ensures PutUpload(T, u, T.uploads[u]).uploads == T.uploads
  {
  }

  lemma RunningSteps(T: Table, e: Idp.Event, route: Idp.Route)
    requires e.execution.Some? && route.d in T.documents && route.u in T.uploads
    ensures var k := Idp.LookupKeyOf(e, route);
      var T1 := if CanRegisterRunning(T, k) then RegisterRunning(T, k, route.run, route.d) else T;
      && route.d in T1.documents && route.u in T1.uploads
      && var T2 := AdvanceDocument(T1, route.d, route.stage, route.run);
      && route.u in T2.uploads
      && Idp.Steps(T, Idp.Register(e, route), T1, Some(Idp.AdvanceDoc(e, route)))
      && Idp.Steps(T1, Idp.AdvanceDoc(e, route), T2, Some(Idp.AdvanceUp(e, route)))
      && Idp.Steps(T2, Idp.AdvanceUp(e, route), AdvanceUpload(T2, route.u, route.stage, route.run), None)
  {
  }

  /** `record_workflow_running`: it registers the execution unless its end is on record, and brings rows
      that are QUEUED on this run to SCREENING. A late RUNNING event regresses neither the lookup row nor
      a status. */
  method RecordWorkflowRunning(r: RegistryTable, e: Idp.Event, route: Idp.Route)
    requires e.execution.Some? && route.d in r.documents && route.u in r.uploads
    modifies r
    ensures Idp.LookupKeyOf(e, route) in r.lookups
    ensures (Idp.LookupKeyOf(e, route) in old(r.lookups)
             && !old(r.lookups)[Idp.LookupKeyOf(e, route)].status.LookupRunning?) ==> r.lookups == old(r.lookups)
    ensures Idp.LookupKeyOf(e, route) !in old(r.lookups) ==>
      r.lookups[Idp.LookupKeyOf(e, route)] == Lookup(route.run, route.d, LookupRunning, Some(old(r.clock)))
    ensures r.documents.Keys == old(r.documents.Keys) && r.uploads.Keys == old(r.uploads.Keys)
    ensures forall d :: d in r.documents && r.documents[d] != old(r.documents)[d] ==>
      d == route.d && route.stage.Screen? && OnlyScreened(old(r.documents)[d].status, r.documents[d].status)
    ensures forall u :: u in r.uploads && r.uploads[u] != old(r.uploads)[u] ==>
      u == route.u && route.stage.Screen? && OnlyScreened(old(r.uploads)[u].status, r.uploads[u].status)
    ensures (route.stage == Screen && old(r.documents)[route.d].status == Queued
             && old(r.documents)[route.d].run == Some(route.run)) ==>
      r.documents[route.d] == old(r.documents)[route.d].(status := Screening)
    ensures (route.stage == Screen && old(r.uploads)[route.u].status == Queued
             && old(r.uploads)[route.u].run == Some(route.run)) ==>
      r.uploads[route.u] == old(r.uploads)[route.u].(status := Screening)
    ensures Reaches(Idp.Steps, old(r.View()), Idp.Register(e, route), r.View(), None)
  {
    hide AdvanceDocument, AdvanceUpload, Idp.Steps, Reaches;
    ghost var T, t := r.View(), Idp.Register(e, route);
    RunningSteps(T, e, route);
    var registered := r.TryRegisterRunning(Idp.LookupKeyOf(e, route), route.run, route.d);
    ghost var T1 := r.View();
    ghost var T2 := AdvanceDocument(T1, route.d, route.stage, route.run);
    RunningDocuments(T1, route.d, route.stage, route.run);
    RunningUploads(T2, route.u, route.stage, route.run);
    r.AdvanceRows(route.d, route.u, route.stage, route.run);
    Begins(Idp.Steps, T, t);
    Goes(Idp.Steps, T, t, T, t, T1, Some(Idp.AdvanceDoc(e, route)));
    Goes(Idp.Steps, T, t, T1, Idp.AdvanceDoc(e, route), T2, Some(Idp.AdvanceUp(e, route)));
    Goes(Idp.Steps, T, t, T2, Idp.AdvanceUp(e, route), r.View(), None);
  }
}
