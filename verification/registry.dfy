/** The registry as the services change it: one table updated in place. Each method is one
    conditional update or transaction, and does to the abstract table exactly what the write of
    the same name does; the operations that need several are the services' own sequences. */
module Registry {
  import opened Records
  import opened Writes

  class RegistryTable {
    var next: Id
    var clock: int
    var heads: map<LoanKey, Head>
    var instances: map<Id, Instance>
    var loanArchives: map<(LoanKey, nat), LoanArchive>
    var outbox: map<Id, OutboxEvent>
    var documents: map<Id, Document>
    var uploads: map<Id, Upload>
    var archives: map<(Id, nat), DocumentArchive>
    var scans: map<(Id, Id), Scan>
    var lookups: map<LookupKey, Lookup>
    var idempotency: map<Identity, Stored>
    var objects: map<Id, Object>
    var latest: map<ObjectKey, Id>
    var signals: map<Id, Signal>
    var pending: set<Id>
    var log: Log

    /** The table as the protocol sees it. */
    function View(): Table
      reads this
    {
      Table(next, clock, heads, instances, loanArchives, outbox, documents, uploads, archives, scans,
            lookups, idempotency, objects, latest, signals, pending, log)
    }

    constructor ()
      ensures View() == EMPTY_TABLE
    {
      next, clock, heads, instances, loanArchives, outbox := 0, 0, map[], map[], map[], map[];
      documents, uploads, archives, scans, lookups, idempotency := map[], map[], map[], map[], map[], map[];
      objects, latest, signals, pending, log := map[], map[], map[], {}, EMPTY_LOG;
    }

    // ------------------------------------------------------------ building blocks

    /** An upload row is written and its change record goes out on the stream. */
    method WriteUpload(u: Id, U: Upload)
      modifies this
      ensures View() == PutUpload(old(View()), u, U)
    {
      hide Find;
      signals := signals[next := StreamRecord(u, Find(uploads, u), U)];
      pending := pending + {next};
      uploads := uploads[u := U];
      next := next + 1;
    }

    method WritePair(d: Id, D: Document, u: Id, U: Upload)
      modifies this
      ensures View() == PutPair(old(View()), d, D, u, U)
    {
      documents := documents[d := D];
      WriteUpload(u, U);
    }

    method WriteObject(o: Object) returns (ref: Ref)
      modifies this
      ensures View() == PutObject(old(View()), o) && ref == Ref(o.key, old(next))
    {
      ref := Ref(o.key, next);
      objects := objects[next := o];
      latest := latest[o.key := next];
      next := next + 1;
    }

    method WriteStored(x: Identity, hash: RequestHash, body: ReplyBody)
      modifies this
      ensures View() == PutStored(old(View()), x, hash, body)
    {
      idempotency := idempotency[x := Stored(hash, body)];
      log := log.(effects := log.effects + [x]);
    }

    method SendSignal(s: Signal)
      modifies this
      ensures View() == Send(old(View()), s)
    {
      signals := signals[next := s];
      pending := pending + {next};
      next := next + 1;
    }

    method WriteReply(x: Identity, hash: RequestHash, body: ReplyBody)
      modifies this
      ensures View() == SendReply(old(View()), x, hash, body)
    {
      log := log.(replies := log.replies + {Reply(x, hash, body)});
    }

    // ----------------------------------------------------------- upload processor

    method WriteScan(u: Id, version: Id, verdict: Verdict, scanCompleted: bool)
      modifies this
      ensures View() == PutScan(old(View()), u, version, verdict, scanCompleted)
    {
      scans := scans[(u, version) := Scan(verdict, scanCompleted)];
      if verdict.Clean? && scanCompleted { log := log.(clean := log.clean + {(u, version)}); }
    }

    method TryValidationLease(u: Id, version: Id) returns (token: Option<Id>)
      modifies this
      ensures token == if CanLeaseValidation(old(View()), u, version) then Some(old(next)) else None
      ensures View() == if token.Some? then LeaseValidation(old(View()), u) else old(View())
      ensures token.Some? <==>
        && u in old(uploads) && old(uploads)[u].status.Validating? && old(uploads)[u].completed
        && old(uploads)[u].sourceVersion == Some(version)
        && (old(uploads)[u].lease.Some? ==> old(uploads)[u].lease.value.expires < clock)
      ensures token.Some? ==> u in uploads && uploads[u].lease == Some(Lease(token.value, clock + 300))
    {
      if u !in uploads || !uploads[u].status.Validating? || !uploads[u].completed
         || uploads[u].sourceVersion != Some(version) || !LeaseFree(uploads[u].lease, clock) {
        return None;
      }
      token := Some(next);
      log := log.(validationLease := log.validationLease[u := next]);
      next := next + 1;
      WriteUpload(u, uploads[u].(lease := Some(Lease(token.value, clock + 300))));
    }

    method TryCommitQueued(u: Id, run: Id, version: Id, token: Id, staged: Ref) returns (ok: bool)
      modifies this
      ensures ok == CanQueue(old(View()), u, run, version, token)
      ensures View() == if ok then CommitQueued(old(View()), u, run, version, token, staged) else old(View())
      ensures ok <==>
        && u in old(uploads) && old(uploads)[u].document in old(documents)
        && var U, D := old(uploads)[u], old(documents)[old(uploads)[u].document];
        && U.status == Validating && U.sourceVersion == Some(version) && U.scan == Some(Clean)
        && U.lease.Some? && U.lease.value.token == token
        && D.currentUpload == Some(u) && D.run == Some(run) && D.status == Validating
    {
      ok := CanQueue(View(), u, run, version, token);
      if ok {
        var U, d := uploads[u], uploads[u].document;
        var D := documents[d].(status := Queued, source := Some(Ref(SourceKey(u), version)),
                               screenInput := Some(staged), failureCode := None);
        var c := Commit(ToQueued, u, run, token, Find(log.validationLease, u));
        WritePair(d, D, u, U.(status := Queued, screenInput := Some(staged), lease := None, failureCode := None));
        log := log.(commits := log.commits + [c]);
      }
    }

    method TryFailUpload(u: Id, code: Code, disposition: Status, version: Id) returns (ok: bool)
      modifies this
      ensures ok == CanFailUpload(old(View()), u)
      ensures View() == if ok then FailUpload(old(View()), u, code, disposition, version) else old(View())
      ensures ok <==>
        && u in old(uploads) && old(uploads)[u].document in old(documents)
        && old(documents)[old(uploads)[u].document].currentUpload == Some(u)
    {
      ok := u in uploads && uploads[u].document in documents
            && documents[uploads[u].document].currentUpload == Some(u);
      if ok {
        var U, d := uploads[u], uploads[u].document;
        WritePair(d, documents[d].(status := disposition, failureCode := Some(code)),
                  u, U.(status := disposition, failureCode := Some(code), lease := None,
                        scanVersion := if U.scanVersion.Some? then U.scanVersion else Some(version)));
      }
    }

    method SyncSummary(u: Id, verdict: Verdict, version: Id)
      requires u in uploads
      modifies this
      ensures View() == SetSummary(old(View()), u, verdict, version)
    {
      WriteUpload(u, uploads[u].(scan := Some(verdict), scanVersion := Some(version)));
    }

    // ---------------------------------------------------------- IDP postprocessor

    method TryRegisterRunning(k: LookupKey, run: Id, d: Id) returns (ok: bool)
      modifies this
      ensures ok == CanRegisterRunning(old(View()), k)
      ensures View() == if ok then RegisterRunning(old(View()), k, run, d) else old(View())
      ensures ok <==> (k in old(lookups) ==> old(lookups)[k].status == LookupRunning)
      ensures ok ==> lookups == old(lookups)[k := Lookup(run, d, LookupRunning,
        if k in old(lookups) && old(lookups)[k].marker.Some? then old(lookups)[k].marker else Some(clock))]
    {
      ok := k !in lookups || lookups[k].status.LookupRunning?;
      if ok {
        var marker := Some(clock);
        if k in lookups && lookups[k].marker.Some? { marker := lookups[k].marker; }
        lookups := lookups[k := Lookup(run, d, LookupRunning, marker)];
      }
    }

    /** The two separate updates of a RUNNING event, document first. */
    method AdvanceRows(d: Id, u: Id, stage: Stage, run: Id)
      requires d in documents && u in uploads
      modifies this
      ensures View() == AdvanceUpload(AdvanceDocument(old(View()), d, stage, run), u, stage, run)
      ensures var D := old(documents)[d];
        documents == if stage == Screen && (D.status == Queued || D.status == Screening) && D.run == Some(run)
                     then old(documents)[d := D.(status := Screening)] else old(documents)
      ensures var U := old(uploads)[u];
        uploads == if stage == Screen && (U.status == Queued || U.status == Screening) && U.run == Some(run)
                   then old(uploads)[u := U.(status := Screening)] else old(uploads)
    {
      if stage.Screen? && CanScreen(documents[d].status, documents[d].run, run) {
        documents := documents[d := documents[d].(status := Screening)];
      }
      ghost var T := View();
      assert T == AdvanceDocument(old(View()), d, stage, run);
      var U := uploads[u];
      if stage.Screen? && CanScreen(U.status, U.run, run) { WriteUpload(u, U.(status := Screening)); }
      else if stage.Full? && CanExtract(U.status, U.run, run) { WriteUpload(u, U); }
    }

    method TryPostprocessLease(d: Id, u: Id, run: Id, stage: Stage) returns (token: Option<Id>)
      modifies this
      ensures token == if CanLeasePostprocess(old(View()), d, u, run, stage) then Some(old(next)) else None
      ensures View() == if token.Some? then LeasePostprocess(old(View()), d) else old(View())
      ensures token.Some? <==>
        && d in old(documents)
        && var D := old(documents)[d];
        && (if stage == Screen then D.status == Queued || D.status == Screening else D.status == Extracting)
        && D.currentUpload == Some(u) && D.run == Some(run)
        && (D.lease.Some? ==> D.lease.value.expires < clock)
      ensures token.Some? ==> d in documents && documents[d].lease == Some(Lease(token.value, clock + 300))
    {
      if !CanLeasePostprocess(View(), d, u, run, stage) { return None; }
      token := Some(next);
      documents := documents[d := documents[d].(lease := Some(Lease(next, clock + 300)))];
      log := log.(postprocessLease := log.postprocessLease[d := next]);
      next := next + 1;
    }

    method WriteLookupEnd(k: LookupKey, run: Id, d: Id, status: LookupStatus)
      modifies this
      ensures View() == EndLookup(old(View()), k, run, d, status)
      ensures lookups == old(lookups)[k := Lookup(run, d, status,
        if status == LookupSucceeded && k in old(lookups) then old(lookups)[k].marker else None)]
    {
      var marker: Option<int> := None;
      if status.LookupSucceeded? && k in lookups { marker := lookups[k].marker; }
      lookups := lookups[k := Lookup(run, d, status, marker)];
    }

    method ClearActiveExecution(k: LookupKey)
      modifies this
      ensures View() == ClearMarker(old(View()), k)
      ensures lookups == if k in old(lookups) then old(lookups)[k := old(lookups)[k].(marker := None)]
                         else old(lookups)
    {
      if k in lookups { lookups := lookups[k := lookups[k].(marker := None)]; }
    }

    method TryHold(d: Id, u: Id, run: Id, code: Code) returns (ok: bool)
      modifies this
      ensures ok == CanHold(old(View()), d, u, run)
      ensures View() == if ok then HoldDocument(old(View()), d, u, code) else old(View())
      ensures ok <==>
        && d in old(documents) && u in old(uploads)
        && old(documents)[d].currentUpload == Some(u) && old(documents)[d].run == Some(run)
        && old(uploads)[u].run == Some(run)
    {
      ok := CanHold(View(), d, u, run);
      if ok {
        WritePair(d, documents[d].(status := Hold, failureCode := Some(code), lease := None),
                  u, uploads[u].(status := Hold, failureCode := Some(code)));
      }
    }

    method TryFailWorkflow(d: Id, u: Id, run: Id, stage: Stage, kind: TerminalKind, execution: nat)
      returns (ok: bool)
      modifies this
      ensures ok == CanFailWorkflow(old(View()), d, u, run, stage)
      ensures View() == if ok then FailWorkflow(old(View()), d, u, run, stage, kind, execution) else old(View())
      ensures ok <==>
        && d in old(documents) && u in old(uploads)
        && old(documents)[d].currentUpload == Some(u) && old(documents)[d].run == Some(run)
        && old(uploads)[u].run == Some(run)
        && (if stage == Screen then
              (old(documents)[d].status == Queued || old(documents)[d].status == Screening)
              && (old(uploads)[u].status == Queued || old(uploads)[u].status == Screening)
            else old(documents)[d].status == Extracting && old(uploads)[u].status == Extracting)
    {
      ok := CanFailWorkflow(View(), d, u, run, stage);
      if ok {
        var code := Some(WorkflowEnded(stage, kind));
        WritePair(d, documents[d].(status := Failed, failureCode := code, terminalKind := Some(kind),
                                   failedExecution := Some(execution), lease := None),
                  u, uploads[u].(status := Failed, failureCode := code));
        WriteLookupEnd(LookupKey(u, stage, execution), run, d, LookupEnded(kind));
      }
    }

    method TryCommitSelected(d: Id, u: Id, run: Id, token: Id, selected: Ref, full: Ref) returns (ok: bool)
      modifies this
      ensures ok == CanSelect(old(View()), d, u, run, token)
      ensures View() == if ok then CommitSelected(old(View()), d, u, run, token, selected, full) else old(View())
      ensures ok <==>
        && d in old(documents) && u in old(uploads)
        && old(documents)[d].currentUpload == Some(u) && old(documents)[d].run == Some(run)
        && old(uploads)[u].run == Some(run)
        && (old(documents)[d].status == Queued || old(documents)[d].status == Screening)
        && (old(uploads)[u].status == Queued || old(uploads)[u].status == Screening)
        && old(documents)[d].lease.Some? && old(documents)[d].lease.value.token == token
    {
      ok := CanSelect(View(), d, u, run, token);
      if ok {
        var c := Commit(ToExtracting, u, run, token, Find(log.postprocessLease, d));
        WritePair(d, documents[d].(status := Extracting, selected := Some(selected), fullInput := Some(full),
                                   failureCode := None, lease := None),
                  u, uploads[u].(status := Extracting, selected := Some(selected), fullInput := Some(full),
                                 failureCode := None));
        log := log.(commits := log.commits + [c]);
      }
    }

    method TryCommitSucceeded(d: Id, u: Id, run: Id, token: Id, data: Ref) returns (ok: bool)
      modifies this
      ensures ok == CanSucceed(old(View()), d, u, run, token)
      ensures View() == if ok then CommitSucceeded(old(View()), d, u, run, token, data) else old(View())
      ensures ok <==>
        && d in old(documents) && u in old(uploads)
        && old(documents)[d].currentUpload == Some(u) && old(documents)[d].run == Some(run)
        && old(uploads)[u].run == Some(run)
        && old(documents)[d].status == Extracting && old(uploads)[u].status == Extracting
        && old(documents)[d].lease.Some? && old(documents)[d].lease.value.token == token
    {
      ok := CanSucceed(View(), d, u, run, token);
      if ok {
        var c := Commit(ToSucceeded, u, run, token, Find(log.postprocessLease, d));
        WritePair(d, documents[d].(status := Succeeded, dataPoints := Some(data), failureCode := None, lease := None),
                  u, uploads[u].(status := Succeeded, dataPoints := Some(data), failureCode := None));
        log := log.(commits := log.commits + [c]);
      }
    }

    // -------------------------------------------------------------------- loan API

    method WriteActivated(loan: LoanKey) returns (instance: Id)
      modifies this
      ensures View() == Activated(old(View()), loan) && instance == old(next)
    {
      var head := if loan in heads then heads[loan] else Head(None, false, 0, 0);
      instance := next;
      heads := heads[loan := Head(Some(instance), true, head.lastArchive, head.revision + 1)];
      instances := instances[instance := Instance(loan, true)];
      next := next + 1;
    }

    method TryCreateLoan(loan: LoanKey, x: Identity, hash: RequestHash) returns (ok: bool)
      modifies this
      ensures ok == CanCreateLoan(old(View()), loan, x)
      ensures View() == if ok then CreateLoan(old(View()), loan, x, hash) else old(View())
      ensures ok <==> x !in old(idempotency) && (loan in old(heads) ==> old(heads)[loan].current == None)
    {
      hide Activated, PutStored;
      ok := CanCreateLoan(View(), loan, x);
      if ok {
        CreateLoanIs(View(), loan, x, hash);
        var instance := WriteActivated(loan);
        WriteStored(x, hash, LoanCreated(loan, instance));
      }
    }

    method WriteBorn(d: Id, D: Document, u: Id, next': Id)
      modifies this
      ensures View() == Born(old(View()), d, D, u, next')
    {
      var born := if d in log.born then log.born[d] else [];
      next := next';
      log := log.(born := log.born[d := born + [u]], ordinal := log.ordinal[u := |born|]);
      WritePair(d, D, u, NewUpload(d));
    }

    method TryCreateDocument(loan: LoanKey, instance: Id, x: Identity, hash: RequestHash) returns (ok: bool)
      modifies this
      ensures ok == CanCreateDocument(old(View()), loan, instance, x)
      ensures View() == if ok then CreateDocument(old(View()), instance, x, hash) else old(View())
      ensures ok <==>
        && x !in old(idempotency) && loan in old(heads)
        && old(heads)[loan].current == Some(instance) && old(heads)[loan].active
    {
      hide Born, PutStored;
      ok := CanCreateDocument(View(), loan, instance, x);
      if ok {
        var d, u := next, next + 1;
        CreateDocumentIs(View(), instance, x, hash);
        WriteBorn(d, NewDocument(instance, u), u, next + 2);
        WriteStored(x, hash, UploadSession(d, u));
      }
    }

    method TryReplace(loan: LoanKey, instance: Id, d: Id, x: Identity, hash: RequestHash) returns (ok: bool)
      modifies this
      ensures ok == CanReplace(old(View()), loan, instance, d, x)
      ensures View() == if ok then Replace(old(View()), d, x, hash) else old(View())
      ensures ok <==>
        && x !in old(idempotency) && loan in old(heads)
        && old(heads)[loan].current == Some(instance) && old(heads)[loan].active
        && d in old(documents) && old(documents)[d].instance == instance
        && old(documents)[d].status == Archived && old(documents)[d].currentUpload == None
    {
      ok := CanReplace(View(), loan, instance, d, x);
      if ok {
        var u := next;
        ReplaceIs(View(), d, x, hash);
        WriteBorn(d, Renewed(documents[d], u), u, next + 1);
        WriteStored(x, hash, UploadSession(d, u));
      }
    }

    method WriteCompleted(d: Id, u: Id, version: Id) returns (run: Id)
      requires d in documents && u in uploads
      modifies this
      ensures View() == Completed(old(View()), d, u, version) && run == old(next)
    {
      run := next;
      next := next + 1;
      log := log.(runOf := log.runOf[run := u]);
      WritePair(d, documents[d].(status := Validating, run := Some(run)),
                u, uploads[u].(status := Validating, completed := true, run := Some(run),
                               sourceVersion := Some(version)));
    }

    method TryComplete(d: Id, u: Id, version: Id, x: Identity, hash: RequestHash) returns (ok: bool)
      modifies this
      ensures ok == CanComplete(old(View()), d, u, x)
      ensures View() == if ok then CompleteUpload(old(View()), d, u, version, x, hash) else old(View())
      ensures ok <==>
        && u in old(uploads) && d in old(documents) && x !in old(idempotency)
        && !old(uploads)[u].completed && old(uploads)[u].status == AwaitingUpload
        && old(documents)[d].currentUpload == Some(u) && old(documents)[d].status == AwaitingUpload
    {
      hide Completed, PutStored;
      ok := CanComplete(View(), d, u, x);
      if ok {
        var run := WriteCompleted(d, u, version);
        WriteStored(x, hash, UploadCompleted(d, u, run, Validating));
      }
    }

    method Bury(d: Id, seen: Document)
      requires d in documents && seen.currentUpload.Some?
      modifies this
      ensures View() == Buried(old(View()), d, seen)
    {
      hide RowOf;
      documents := documents[d := documents[d].(status := Archived, lastArchive := seen.lastArchive + 1,
                                                currentUpload := None)];
      archives := archives[(d, seen.lastArchive + 1) := RowOf(seen)];
    }

    method TryArchiveDocument(d: Id, seen: Document, x: Identity, hash: RequestHash) returns (ok: bool)
      requires seen.currentUpload.Some?
      modifies this
      ensures ok == CanArchiveDocument(old(View()), d, seen, x)
      ensures View() == if ok then ArchiveDocument(old(View()), d, seen, x, hash) else old(View())
      ensures ok <==>
        && d in old(documents) && x !in old(idempotency)
        && old(documents)[d].currentUpload == seen.currentUpload && old(documents)[d].status == seen.status
        && old(documents)[d].lastArchive == seen.lastArchive && (d, seen.lastArchive + 1) !in old(archives)
    {
      hide Buried, PutStored, RowOf;
      ok := CanArchiveDocument(View(), d, seen, x);
      if ok {
        CanBury(View(), d, seen, x);
        ArchiveDocumentIs(View(), d, seen, x, hash);
        Bury(d, seen);
        WriteStored(x, hash, DocumentArchived(d, seen.currentUpload.value, seen.lastArchive + 1));
      }
    }

    method CloseHead(loan: LoanKey, instance: Id)
      requires loan in heads && instance in instances
      modifies this
      ensures View() == HeadClosed(old(View()), loan, instance)
    {
      heads := heads[loan := Head(None, false, heads[loan].lastArchive + 1, heads[loan].revision + 1)];
      instances := instances[instance := instances[instance].(active := false)];
    }

    method RecordArchive(loan: LoanKey, instance: Id, sequence: nat, m: Manifest, bytes: Bytes, stored: Ref)
      modifies this
      ensures View() == ArchiveRecorded(old(View()), loan, instance, sequence, m, bytes, stored)
    {
      hide ArchiveLogged;
      loanArchives := loanArchives[(loan, sequence) :=
        LoanArchive(instance, |m.documents|, stored, Sha256(bytes))];
      outbox := outbox[next := OutboxEvent(loan, instance, sequence)];
      log := ArchiveLogged(log, loan, instance, sequence, next, m);
      next := next + 1;
    }

    method WriteRetired(loan: LoanKey, instance: Id, m: Manifest, bytes: Bytes, stored: Ref)
      requires loan in heads && instance in instances
      modifies this
      ensures View() == Retired(old(View()), loan, instance, m, bytes, stored)
    {
      hide HeadClosed, ArchiveRecorded;
      var sequence := heads[loan].lastArchive + 1;
      CloseHead(loan, instance);
      RecordArchive(loan, instance, sequence, m, bytes, stored);
    }

    method TryArchiveLoan(
      loan: LoanKey, instance: Id, last: nat, m: Manifest, bytes: Bytes, stored: Ref, x: Identity, hash: RequestHash)
      returns (ok: bool)
      modifies this
      ensures ok == CanArchiveLoan(old(View()), loan, instance, last, x)
      ensures View() == if ok then ArchiveLoan(old(View()), loan, instance, m, bytes, stored, x, hash)
                        else old(View())
      ensures ok <==>
        && x !in old(idempotency) && loan in old(heads) && instance in old(instances)
        && old(heads)[loan].current == Some(instance) && old(heads)[loan].active
        && old(heads)[loan].lastArchive == last && old(instances)[instance].active
        && (loan, last + 1) !in old(loanArchives)
    {
      hide Retired, PutStored;
      ok := CanArchiveLoan(View(), loan, instance, last, x);
      if ok {
        ArchiveLoanIs(View(), loan, instance, m, bytes, stored, x, hash);
        WriteRetired(loan, instance, m, bytes, stored);
        WriteStored(x, hash, LoanArchived(loan, instance, last + 1, |m.documents|));
      }
    }
  }
}
